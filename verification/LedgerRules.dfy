/** When the ledger takes a report, an order or a fill: the exact conditions, over the rows a
    caller can read beforehand. */
module LedgerRules {
  import opened Decimals
  import opened Accounting
  import opened Ledger
  import opened LedgerLemmas
  import opened LedgerInvariant
  import opened LedgerTheorems

  // ---------------------------------------------------------------------------
  // Reports and orders
  // ---------------------------------------------------------------------------

  /** Two reports of one fill: the same in everything except the commission. */
  predicate SameFill(a: Execution, b: Execution) {
    && a.id == b.id && a.trade == b.trade && a.order == b.order && a.strategy == b.strategy
    && a.instrument == b.instrument && a.fill == b.fill && a.asset == b.asset && a.executedAt == b.executedAt
  }

  /** A valid report is staged unless the entry under its trade's name has another day or
      another fill; a first report becomes a pending entry, a further one changes nothing. */
  lemma ReportIsStaged(t: Tables, e: Execution, receivedAt: int, day: Name)
    ensures var key := if e.trade != "" then e.trade else e.id;
            var staged := Stage(t, e, receivedAt, day);
            && (staged.Ok? <==>
                  && e.fill.quantity > 0.0 && e.fill.price > 0.0 && e.commission >= 0.0
                  && (key in t.inbox ==> t.inbox[key].day == day && SameFill(t.inbox[key].execution, e)))
            && (staged.Ok? ==>
                  staged.value == if key in t.inbox then t
                                  else t.(inbox := t.inbox[key := Staged(e, day, receivedAt, false)]))
  {
  }

  /** An order is stored exactly when it is new, asks for something and is filled within that. */
  lemma OrderIsStored(t: Tables, order: Name, row: OrderRow)
    ensures Place(t, order, row).Ok? <==>
              order !in t.orders && row.requested > 0.0 && 0.0 <= row.filled <= row.requested
    ensures Place(t, order, row).Ok? ==> Place(t, order, row).value == t.(orders := t.orders[order := row])
  {
  }

  /** Open orders are those still pending, accepted, partially filled or unknown. */
  lemma OpenOrdersAre(t: Tables, order: Name)
    ensures order in OpenOrders(t) <==>
              && order in t.orders
              && var status := t.orders[order].status;
                 status == "pending" || status == "accepted" || status == "partially_filled" || status == "unknown"
  {
  }

  // ---------------------------------------------------------------------------
  // Stored commissions
  // ---------------------------------------------------------------------------

  /** Every stored fill of the order is charged in this asset. */
  predicate InAsset(executions: seq<Recorded>, order: Name, asset: Name) {
    forall i :: 0 <= i < |executions| && executions[i].execution.order == order ==>
        executions[i].execution.asset == asset
  }

  predicate HasFills(executions: seq<Recorded>, order: Name) {
    exists i :: 0 <= i < |executions| && executions[i].execution.order == order
  }

  /** Stored commissions can be added up exactly when they share one asset, which is then known
      exactly when there are any. */
  lemma {:induction false} PersistedIsShared(executions: seq<Recorded>, order: Name, asset: Name)
    ensures var stored := PersistedCommission(executions, order);
            && (stored.Ok? ==> (stored.value.asset.Some? <==> HasFills(executions, order)))
            && (stored.Ok? && stored.value.asset.Some? ==> InAsset(executions, order, stored.value.asset.value))
            && (stored.Ok? ==>
                  forall i :: 0 <= i < |executions| && executions[i].execution.order == order ==>
                    executions[i].receivedAt <= stored.value.observedAt)
            && (InAsset(executions, order, asset) ==>
                  stored.Ok? && (stored.value.asset == None || stored.value.asset == Some(asset)))
  {
    if executions != [] {
      var init, last := executions[..|executions| - 1], executions[|executions| - 1];
      PersistedIsShared(init, order, asset);
      assert forall i :: 0 <= i < |init| ==> init[i] == executions[i];
      if HasFills(init, order) {
        var i :| 0 <= i < |init| && init[i].execution.order == order;
        assert executions[i].execution.order == order;
      }
    }
  }

  // ---------------------------------------------------------------------------
  // Fills
  // ---------------------------------------------------------------------------

  /** The order is on file for the fill's strategy, instrument and side, and has room for it. */
  predicate FitsOrder(t: Tables, e: Execution) {
    && e.order in t.orders
    && var order := t.orders[e.order];
       && order.strategy == e.strategy && order.instrument == e.instrument && order.side == e.fill.side
       && FillSum(t.executions, e.order) + e.fill.quantity <= order.requested
  }

  /** Whatever is known about the order's commissions and the holding is in the fill's asset. */
  predicate FitsAsset(t: Tables, e: Execution) {
    && InAsset(t.executions, e.order, e.asset)
    && (e.order in t.commissions ==> t.commissions[e.order].asset == e.asset)
    && (e.Held() in t.positions ==> t.positions[e.Held()].asset == e.asset)
  }

  /** No recorded fill has the identifier, and a sale is covered by what is held. */
  predicate FitsBooks(t: Tables, e: Execution) {
    && (forall i :: 0 <= i < |t.executions| ==> t.executions[i].execution.id != e.id)
    && (e.fill.side == Sell ==> e.fill.quantity <= HeldQuantity(t, e.Held()))
  }

  lemma BaselineIsPossible(t: Tables, e: Execution, receivedAt: int)
    requires Watermarks(t) && MatchingOrder(t, e).Ok?
    ensures Baseline(t, e, receivedAt).Ok? <==>
              var stored := PersistedCommission(t.executions, e.order);
              stored.Ok? && (e.order in t.commissions ==>
                t.commissions[e.order].asset == if stored.value.asset.Some? then stored.value.asset.value else e.asset)
  {
    hide PersistedCommission, Stored;
  }

  lemma AddIsPossible(t: Tables, key: Name, e: Execution, order: OrderRow, receivedAt: int)
    requires order.filled <= order.requested
    ensures AddExecution(t, key, e, order, receivedAt).Ok? <==>
              !HasId(t.executions, e.id) && FillSum(t.executions, e.order) + e.fill.quantity <= order.requested
  {
    hide FillSum, HasId;
    Append(t.executions, Recorded(key, e, receivedAt), e.order, e.Held(), key);
  }

  lemma MoveIsPossible(t: Tables, e: Execution)
    requires LongOnly(t) && e.Valid()
    ensures MovePosition(t, e).Ok? <==>
              && (e.Held() in t.positions ==> t.positions[e.Held()].asset == e.asset)
              && (e.fill.side == Sell ==> e.fill.quantity <= HeldQuantity(t, e.Held()))
  {
    hide WeightedAverage;
  }

  lemma NoEventYet(t: Tables, e: Execution, component: Component)
    requires Events(t) && !HasId(t.executions, e.id)
    ensures !HasEvent(t.profits, OfExecution(e.id, component))
  {
    assert !Sourced(t, OfExecution(e.id, component));
  }

  lemma RecordIsPossible(t: Tables, e: Execution, day: Name, delta: real, realized: real, closed: bool)
    requires forall component :: !HasEvent(t.profits, OfExecution(e.id, component))
    ensures RecordFill(t, e, day, delta, realized, closed).Ok?
  {
    hide Upsert, DayOf;
    var first := ProfitEvent(OfExecution(e.id, RealizedComponent), e.order, e.strategy, e.asset, RealizedComponent,
                             realized);
    assert HasEvent(t.profits + [first], OfExecution(e.id, CommissionComponent)) ==>
           HasEvent(t.profits, OfExecution(e.id, CommissionComponent));
  }

  lemma ChargeIsPossible(t: Tables, e: Execution, day: Name, realized: real, closed: bool)
    requires forall component :: !HasEvent(t.profits, OfExecution(e.id, component))
    requires e.order in t.commissions && t.commissions[e.order].strategy == e.strategy
    ensures ChargeFill(t, e, day, realized, closed).Ok? <==>
              var stored := PersistedCommission(t.executions, e.order);
              stored.Ok? && t.commissions[e.order].asset ==
                            if stored.value.asset.Some? then stored.value.asset.value else e.asset
  {
    hide PersistedCommission, RecordFill, HasEvent;
    var stored := PersistedCommission(t.executions, e.order);
    if stored.Ok? {
      var asset := if stored.value.asset.Some? then stored.value.asset.value else e.asset;
      var advanced := Synchronize(t, e.order, e.strategy, stored.value.total, asset, stored.value.observedAt);
      if advanced.Ok? {
        RecordIsPossible(t.(commissions := advanced.value.commissions), e, day, advanced.value.delta, realized, closed);
      }
    }
  }

  /** The fill is in the asset of everything known about its order exactly when both commission
      steps of its projection agree with it. */
  lemma AssetsAgree(t: Tables, key: Name, e: Execution, receivedAt: int)
    requires Watermarks(t) && MatchingOrder(t, e).Ok?
    ensures var stored := PersistedCommission(t.executions + [Recorded(key, e, receivedAt)], e.order);
            stored.Ok? ==> stored.value.asset.Some?
    ensures var more := t.executions + [Recorded(key, e, receivedAt)];
            (InAsset(t.executions, e.order, e.asset) && (e.order in t.commissions ==>
               t.commissions[e.order].asset == e.asset)) <==>
            && Baseline(t, e, receivedAt).Ok?
            && PersistedCommission(more, e.order).Ok?
            && var row := Baseline(t, e, receivedAt).value.commissions[e.order];
               PersistedCommission(more, e.order).value.asset == Some(row.asset)
  {
    hide Stored, Synchronize, HasFills, InAsset;
    var stored, more := PersistedCommission(t.executions, e.order), t.executions + [Recorded(key, e, receivedAt)];
    assert more[..|t.executions|] == t.executions;
    SharedAsset(t.executions, e.order, e.asset);
    BaselineIsPossible(t, e, receivedAt);
    if Baseline(t, e, receivedAt).Ok? {
      var asset := if stored.value.asset.Some? then stored.value.asset.value else e.asset;
      var observedAt := if stored.value.observedAt == 0 then receivedAt else stored.value.observedAt;
      SynchronizeMoves(t, e.order, e.strategy, stored.value.total, asset, observedAt);
    }
  }

  lemma SharedAsset(executions: seq<Recorded>, order: Name, asset: Name)
    ensures var stored := PersistedCommission(executions, order);
            InAsset(executions, order, asset) <==>
            stored.Ok? && (stored.value.asset == None || stored.value.asset == Some(asset))
  {
    hide PersistedCommission;
    PersistedIsShared(executions, order, asset);
  }

  /** A staged fill that is not recorded yet is applied exactly when it fits its order, every
      asset it touches is its own, nothing is recorded under its identifier and a sale is
      covered. Whatever else could fail cannot, in a sound ledger. */
  lemma FillIsApplied(t: Tables, key: Name)
    requires Sound(t) && LongOnly(t) && StagedValid(t)
    requires key in t.inbox && !t.inbox[key].applied && Find(t.executions, key).None?
    ensures var e := t.inbox[key].execution;
            Apply(t, key).Ok? <==> FitsOrder(t, e) && FitsAsset(t, e) && FitsBooks(t, e)
  {
    hide ProjectNew, FitsOrder, FitsAsset, FitsBooks, Recordings, Positions, Balanced, Find;
    var entry := t.inbox[key];
    ProjectionFits(t, key, entry.execution, entry.day, entry.receivedAt);
  }

  /** A fill that is already recorded only has its entry marked, if it is the same fill. */
  lemma KnownFillIsMarked(t: Tables, key: Name)
    requires LongOnly(t) && StagedValid(t) && key in t.inbox && !t.inbox[key].applied && Find(t.executions, key).Some?
    ensures var found, entry := Find(t.executions, key).value, t.inbox[key];
            && (Apply(t, key).Ok? <==> SameFill(found, entry.execution))
            && (Apply(t, key).Ok? ==>
                  Apply(t, key).value == t.(inbox := t.inbox[key := entry.(applied := true)]))
  {
    hide ProjectNew, Find;
  }

  lemma ProjectionFits(t: Tables, key: Name, e: Execution, day: Name, receivedAt: int)
    requires Filled(t) && Watermarks(t) && Events(t) && LongOnly(t) && e.Valid()
    ensures ProjectNew(t, key, e, day, receivedAt).Ok? <==> FitsOrder(t, e) && FitsAsset(t, e) && FitsBooks(t, e)
  {
    hide Baseline, AddExecution, MovePosition, ChargeFill, FillSum, Watermarks, InAsset, Stored, HasEvent,
         PersistedCommission, Events;
    if MatchingOrder(t, e).Ok? {
      var order := t.orders[e.order];
      AssetsAgree(t, key, e, receivedAt);
      if Baseline(t, e, receivedAt).Ok? {
        var based := Baseline(t, e, receivedAt).value;
        DiscardedDeltaIsZero(t, e, receivedAt);
        AddIsPossible(based, key, e, order, receivedAt);
        if AddExecution(based, key, e, order, receivedAt).Ok? {
          var added := AddExecution(based, key, e, order, receivedAt).value;
          AddedRows(based, key, e, order, receivedAt);
          MoveIsPossible(added, e);
          if MovePosition(added, e).Ok? {
            var moved := MovePosition(added, e).value;
            forall component ensures !HasEvent(t.profits, OfExecution(e.id, component)) {
              NoEventYet(t, e, component);
            }
            ChargeIsPossible(added.(positions := moved.positions), e, day, moved.realized, moved.closed);
          }
        }
      }
    }
  }

  lemma AddedRows(t: Tables, key: Name, e: Execution, order: OrderRow, receivedAt: int)
    requires AddExecution(t, key, e, order, receivedAt).Ok?
    ensures var added := AddExecution(t, key, e, order, receivedAt).value;
            && added == t.(executions := t.executions + [Recorded(key, e, receivedAt)], orders := added.orders)
  {
    hide FillSum, HasId;
  }
}
