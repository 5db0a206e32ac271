/** The invariant of the ledger and its preservation by every transaction. */
module LedgerInvariant {
  import opened Decimals
  import opened Accounting
  import opened Ledger
  import opened LedgerLemmas

  /** Realized profit events of one holding, through the orders they belong to. */
  function RealizedFor(orders: map<Name, OrderRow>, profits: seq<ProfitEvent>, h: Holding): real {
    if profits == [] then 0.0
    else
      var last := profits[|profits| - 1];
      RealizedFor(orders, profits[..|profits| - 1], h) +
      if last.component == RealizedComponent && last.order in orders && HeldBy(orders[last.order]) == h
          then last.amount else 0.0
  }

  function HeldBy(order: OrderRow): Holding {
    Holding(order.strategy, order.instrument)
  }

  /** The fills of an order add up to no more than its fill level, which never exceeds
      what was requested. */
  predicate Filled(t: Tables) {
    && (forall i :: 0 <= i < |t.executions| ==>
          var e := t.executions[i].execution;
          e.order in t.orders && HeldBy(t.orders[e.order]) == e.Held())
    && forall o :: o in t.orders ==> FillSum(t.executions, o) <= t.orders[o].filled <= t.orders[o].requested
  }

  /** A holding's stored row and realized profit are the long-only fold of its fills. */
  ghost predicate Folded(t: Tables, h: Holding)
    requires Recordings(t.executions)
  {
    FillsAreValid(t.executions, h);
    FoldLong(FillsFor(t.executions, h)) == Some(LongBooks(RowOf(t.positions, h), RealizedFor(t.orders, t.profits, h)))
  }

  ghost predicate Positions(t: Tables)
    requires Recordings(t.executions)
  {
    forall h :: Folded(t, h)
  }

  /** Profit events have distinct identifiers, each naming a recorded execution or a level
      the order's watermark has reached. */
  predicate Events(t: Tables) {
    && (forall i, j :: 0 <= i < j < |t.profits| ==> t.profits[i].id != t.profits[j].id)
    && forall i :: 0 <= i < |t.profits| ==> Sourced(t, t.profits[i].id)
  }

  predicate Sourced(t: Tables, id: EventId) {
    match id
    case OfExecution(e, _) => HasId(t.executions, e)
    case OfOrder(o, asset, cumulative) =>
      o in t.commissions && t.commissions[o].asset == asset && cumulative <= t.commissions[o].cumulative
  }

  /** Every profit event belongs to an order on file. */
  predicate Owned(t: Tables) {
    forall i :: 0 <= i < |t.profits| ==> t.profits[i].order in t.orders
  }

  ghost predicate Sound(t: Tables) {
    Keyed(t) && Filled(t) && Positions(t) && Watermarks(t) && Balanced(t.daily, t.profits) && Events(t) && Owned(t)
  }

  lemma SoundIsLong(t: Tables)
    requires Keyed(t) && Positions(t)
    ensures LongOnly(t)
  {
    forall h | h in t.positions ensures t.positions[h].position.quantity >= 0.0 {
      assert Folded(t, h);
    }
  }

  /** The rest of the invariant does not look at the inbox. */
  lemma OnlyInbox(t: Tables, t': Tables)
    requires Recordings(t.executions) && t' == t.(inbox := t'.inbox)
    ensures Filled(t) ==> Filled(t')
    ensures Watermarks(t) ==> Watermarks(t')
    ensures Positions(t) ==> Positions(t')
    ensures Events(t) ==> Events(t')
  {
    hide Recordings, FillSum, Stored, HasId, FillsFor, RealizedFor, FoldLong;
    if Positions(t) {
      forall h ensures Folded(t', h) {
        assert Folded(t, h);
      }
    }
    assert forall id :: Sourced(t, id) == Sourced(t', id);
  }

  // ---------------------------------------------------------------------------
  // Staging
  // ---------------------------------------------------------------------------

  /** Staging adds at most one pending entry and never touches another. */
  lemma StageKeepsSound(t: Tables, e: Execution, receivedAt: int, day: Name)
    requires Sound(t) && Stage(t, e, receivedAt, day).Ok?
    ensures var t' := Stage(t, e, receivedAt, day).value;
            && Sound(t') && t' == t.(inbox := t'.inbox)
            && t'.inbox == t.inbox[e.Key() := t'.inbox[e.Key()]]
            && (e.Key() in t.inbox ==> t' == t)
            && t'.inbox[e.Key()].execution.Identity() == e.Identity()
            && (e.Key() !in t.inbox ==> t'.inbox[e.Key()] == Staged(e, day, receivedAt, false))
  {
    hide Recordings, Filled, Positions, Watermarks, Events, Balanced, Find;
    OnlyInbox(t, Stage(t, e, receivedAt, day).value);
  }

  // ---------------------------------------------------------------------------
  // Order rows
  // ---------------------------------------------------------------------------

  lemma {:induction false} NewHolderOwnsNothing(orders: map<Name, OrderRow>, order: Name, row: OrderRow,
                                                profits: seq<ProfitEvent>, h: Holding)
    requires order !in orders && forall i :: 0 <= i < |profits| ==> profits[i].order in orders
    ensures RealizedFor(orders[order := row], profits, h) == RealizedFor(orders, profits, h)
  {
    if profits != [] {
      NewHolderOwnsNothing(orders, order, row, profits[..|profits| - 1], h);
    }
  }

  lemma {:induction false} NoFillsYet(executions: seq<Recorded>, order: Name)
    requires forall i :: 0 <= i < |executions| ==> executions[i].execution.order != order
    ensures FillSum(executions, order) == 0.0 && Stored(executions, order) == 0.0
  {
    if executions != [] {
      NoFillsYet(executions[..|executions| - 1], order);
    }
  }

  /** A new order row starts with no fill, no commission and no profit of its own. */
  lemma PlaceKeepsSound(t: Tables, order: Name, row: OrderRow)
    requires Sound(t) && Place(t, order, row).Ok?
    ensures Sound(Place(t, order, row).value) && Level(t, order) == 0.0
  {
    hide Recordings, Balanced, Find, FillSum, Stored, HasId, FillsFor, RealizedFor, FoldLong;
    var t' := Place(t, order, row).value;
    NoFillsYet(t.executions, order);
    forall h ensures Folded(t', h) {
      assert Folded(t, h);
      NewHolderOwnsNothing(t.orders, order, row, t.profits, h);
    }
    assert forall id :: Sourced(t, id) == Sourced(t', id);
  }

  // ---------------------------------------------------------------------------
  // Commission observations
  // ---------------------------------------------------------------------------

  lemma {:induction false} AppendRealized(orders: map<Name, OrderRow>, profits: seq<ProfitEvent>, e: ProfitEvent,
      h: Holding)
    ensures RealizedFor(orders, profits + [e], h) == RealizedFor(orders, profits, h) +
            if e.component == RealizedComponent && e.order in orders && HeldBy(orders[e.order]) == h then e.amount
                else 0.0
  {
    assert (profits + [e])[..|profits|] == profits;
  }

  /** An accepted observation raises its order's level to the reported amount and charges
      exactly the rise; no other order is affected. */
  lemma ObserveRaises(t: Tables, order: Name, amount: real, asset: Name, observedAt: int, day: Name)
    requires Balanced(t.daily, t.profits) && Observe(t, order, amount, asset, observedAt, day).Ok?
    ensures var t' := Observe(t, order, amount, asset, observedAt, day).value;
            && Balanced(t'.daily, t'.profits)
            && order in t.orders && order in t'.commissions &&
                 t'.commissions == t.commissions[order := t'.commissions[order]]
            && t' == t.(commissions := t'.commissions, daily := t'.daily, profits := t'.profits)
            && t'.commissions[order].cumulative == amount >= Level(t, order)
            && t'.commissions[order].asset == asset && t'.commissions[order].strategy == t.orders[order].strategy
            && (order in t.commissions ==> t.commissions[order].asset == asset)
            && (forall o :: Charged(t'.profits, o) == Charged(t.profits, o) + if o == order
                 then amount - Level(t, order) else 0.0)
            && (if amount > Level(t, order) then
                  t'.profits == t.profits + [ProfitEvent(OfOrder(order, asset, amount), order,
                      t.orders[order].strategy, asset, CommissionComponent, amount - Level(t, order))]
                  && !HasEvent(t.profits, OfOrder(order, asset, amount))
                else t'.profits == t.profits)
  {
    hide Advance, Upsert, DayOf, Charged, HasEvent, Level, DaysTotal, EventsTotal, Totalled, OneRowADay;
    var strategy := t.orders[order].strategy;
    AdvanceMoves(t, order, strategy, amount, asset, observedAt);
    var advanced := Advance(t, order, strategy, amount, asset, observedAt).value;
    var next := t.(commissions := advanced.commissions);
    if advanced.applied {
      RecordCommissionBalances(next, order, strategy, amount, asset, advanced.delta, day);
    }
  }

  lemma MoreEvents(t: Tables, t': Tables, e: ProfitEvent)
    requires Events(t) && t'.profits == t.profits + [e] && !HasEvent(t.profits, e.id)
    requires Sourced(t', e.id) && forall id :: Sourced(t, id) ==> Sourced(t', id)
    ensures Events(t')
  {
    hide Sourced;
  }

  lemma ObservedEvents(t: Tables, t': Tables, order: Name, amount: real, asset: Name)
    requires Events(t) && t'.executions == t.executions
    requires order in t'.commissions && t'.commissions == t.commissions[order := t'.commissions[order]]
    requires t'.commissions[order].cumulative == amount >= Level(t, order) && t'.commissions[order].asset == asset
    requires order in t.commissions ==> t.commissions[order].asset == asset
    requires if amount > Level(t, order) then
               exists e: ProfitEvent :: t'.profits == t.profits + [e] && e.id == OfOrder(order, asset, amount) &&
                   !HasEvent(t.profits, e.id)
             else t'.profits == t.profits
    ensures Events(t')
  {
    hide HasEvent;
    forall id | Sourced(t, id) ensures Sourced(t', id) {
    }
    if amount > Level(t, order) {
      var e: ProfitEvent :| t'.profits == t.profits + [e] && e.id == OfOrder(order, asset, amount) &&
          !HasEvent(t.profits, e.id);
      MoreEvents(t, t', e);
    }
  }

  lemma ObserveKeepsSound(t: Tables, order: Name, amount: real, asset: Name, observedAt: int, day: Name)
    requires Sound(t) && Observe(t, order, amount, asset, observedAt, day).Ok?
    ensures Sound(Observe(t, order, amount, asset, observedAt, day).value)
  {
    hide Observe, Balanced, Recordings, Charged, HasEvent, Find, FillSum, HasId, RealizedFor, Events;
    var t' := Observe(t, order, amount, asset, observedAt, day).value;
    ObserveRaises(t, order, amount, asset, observedAt, day);
    ObservedEvents(t, t', order, amount, asset);
    forall h ensures Folded(t', h) {
      assert Folded(t, h);
      ObservedRealized(t, t', h);
    }
  }

  lemma ObservedRealized(t: Tables, t': Tables, h: Holding)
    requires t'.orders == t.orders
    requires
      || t'.profits == t.profits
      || exists e: ProfitEvent :: e.component == CommissionComponent && t'.profits == t.profits + [e]
    ensures RealizedFor(t'.orders, t'.profits, h) == RealizedFor(t.orders, t.profits, h)
  {
    if t'.profits != t.profits {
      var e: ProfitEvent :| e.component == CommissionComponent && t'.profits == t.profits + [e];
      AppendRealized(t.orders, t.profits, e, h);
    }
  }

  // ---------------------------------------------------------------------------
  // Fills
  // ---------------------------------------------------------------------------

  /** What a new fill does to every table, in terms of the tables before it. */
  ghost predicate Projected(t: Tables, key: Name, e: Execution, receivedAt: int, t': Tables)
    requires LongOnly(t) && e.Valid()
  {
    && MatchingOrder(t, e).Ok? && !HasId(t.executions, e.id)
    && var order, step := t.orders[e.order], ApplyLong(RowOf(t.positions, e.Held()), e.fill);
       var filled := Max(order.filled, FillSum(t'.executions, e.order));
       var status := if filled == order.requested then "filled" else "partially_filled";
       && filled <= order.requested && step.Some?
       && t'.inbox == t.inbox
       && t'.executions == t.executions + [Recorded(key, e, receivedAt)]
       && t'.orders == t.orders[e.order := order.(filled := filled, status := status)]
       && t'.positions == t.positions[e.Held() := PositionRow(step.value.position, e.asset)]
       && ChargedOnce(t, e, t')
       && var realized := if step.value.closedTrade then [RealizedEvent(e, step.value.realized)] else [];
          var delta := Level(t', e.order) - Level(t, e.order);
          t'.profits == t.profits + realized + (if delta == 0.0 then [] else [ChargeEvent(e, delta)])
  }

  /** The order's level rises to the stored commissions when they exceed it, and exactly
      the rise is charged. */
  ghost predicate ChargedOnce(t: Tables, e: Execution, t': Tables) {
    && e.order in t'.commissions
    && t'.commissions == t.commissions[e.order := t'.commissions[e.order]]
    && t'.commissions[e.order].strategy == e.strategy
    && (e.order in t.commissions ==> t.commissions[e.order].asset == t'.commissions[e.order].asset)
    && Level(t', e.order) == Max(Stored(t'.executions, e.order), Level(t, e.order))
    && forall o :: Charged(t'.profits, o) == Charged(t.profits, o) + if o == e.order then Level(t', o) - Level(t, o)
         else 0.0
  }

  /** The last step of a projection: from the tables with the watermark at its baseline and
      the fill already added and moved. */
  lemma ChargeFillShape(t: Tables, e: Execution, day: Name, realized: real, closed: bool)
    requires e.order in t.commissions && ChargeFill(t, e, day, realized, closed).Ok?
    requires Balanced(t.daily, t.profits) && (!closed ==> realized == 0.0)
    ensures var t' := ChargeFill(t, e, day, realized, closed).value;
            && t' == t.(commissions := t'.commissions, daily := t'.daily, profits := t'.profits)
            && Balanced(t'.daily, t'.profits)
            && e.order in t'.commissions && t'.commissions == t.commissions[e.order := t'.commissions[e.order]]
            && t'.commissions[e.order].strategy == e.strategy
            && t'.commissions[e.order].asset == t.commissions[e.order].asset
            && t'.commissions[e.order].cumulative == Max(Stored(t.executions, e.order),
                 t.commissions[e.order].cumulative)
            && var delta := t'.commissions[e.order].cumulative - t.commissions[e.order].cumulative;
               && (forall o :: Charged(t'.profits, o) == Charged(t.profits, o) + if o == e.order then delta else 0.0)
               && t'.profits == t.profits + (if closed then [RealizedEvent(e, realized)] else []) + (if delta == 0.0
                    then [] else [ChargeEvent(e, delta)])
  {
    hide Synchronize, Upsert, DayOf, WithTotal, HasEvent, Charged, Balanced;
    var stored := PersistedCommission(t.executions, e.order).value;
    StoredIsPersisted(t.executions, e.order);
    var asset := if stored.asset.Some? then stored.asset.value else e.asset;
    SynchronizeMoves(t, e.order, e.strategy, stored.total, asset, stored.observedAt);
    var advanced := Synchronize(t, e.order, e.strategy, stored.total, asset, stored.observedAt).value;
    RecordFillEvents(t.(commissions := advanced.commissions), e, day, advanced.delta, realized, closed);
    RecordFillBalances(t.(commissions := advanced.commissions), e, day, advanced.delta, realized, closed);
  }

  lemma ProjectShape(t: Tables, key: Name, e: Execution, day: Name, receivedAt: int)
    requires LongOnly(t) && Watermarks(t) && Balanced(t.daily, t.profits) && e.Valid()
    requires ProjectNew(t, key, e, day, receivedAt).Ok?
    ensures var t' := ProjectNew(t, key, e, day, receivedAt).value;
            Projected(t, key, e, receivedAt, t') && Balanced(t'.daily, t'.profits)
  {
    hide ChargeFill, Baseline, HasId, FillSum, Charged, Balanced, Watermarks, ApplyLong, Stored;
    var order := MatchingOrder(t, e).value;
    var based := Baseline(t, e, receivedAt).value;
    DiscardedDeltaIsZero(t, e, receivedAt);
    var added := AddExecution(based, key, e, order, receivedAt).value;
    var moved := MovePosition(added, e).value;
    OpeningIsNotClosed(RowOf(t.positions, e.Held()), e.fill);
    ChargeFillShape(added.(positions := moved.positions), e, day, moved.realized, moved.closed);
  }

  lemma OpeningIsNotClosed(row: Option<Position>, fill: Fill)
    requires fill.Valid() && (row.Some? ==> row.value.quantity >= 0.0)
    ensures var step := ApplyLong(row, fill);
            step.Some? && !step.value.closedTrade ==> step.value.realized == 0.0
  {
    hide WeightedAverage, Spread;
  }

  lemma ProjectedRecordings(t: Tables, key: Name, e: Execution, receivedAt: int, t': Tables)
    requires Keyed(t) && LongOnly(t) && e.Valid() && e.Key() == key && Find(t.executions, key).None?
    requires Projected(t, key, e, receivedAt, t')
    ensures Recordings(t'.executions)
    ensures forall k :: Find(t'.executions, k) == if k == key then Some(e) else Find(t.executions, k)
  {
    hide Find, FillSum, Stored, ApplyLong, ChargedOnce;
    FindIn(t.executions, key);
    assert forall i :: 0 <= i < |t.executions| ==> t.executions[i].key != key && t.executions[i].execution.id != e.id;
    forall k ensures Find(t'.executions, k) == if k == key then Some(e) else Find(t.executions, k) {
      Append(t.executions, Recorded(key, e, receivedAt), e.order, e.Held(), k);
    }
  }

  lemma ProjectedFilled(t: Tables, key: Name, e: Execution, receivedAt: int, t': Tables)
    requires Filled(t) && LongOnly(t) && e.Valid() && Projected(t, key, e, receivedAt, t')
    ensures Filled(t')
  {
    hide Find, FillSum, Stored, ApplyLong, ChargedOnce, HasId;
    forall o | o in t'.orders ensures FillSum(t'.executions, o) <= t'.orders[o].filled <= t'.orders[o].requested {
      Append(t.executions, Recorded(key, e, receivedAt), o, e.Held(), key);
    }
  }

  lemma ProjectedWatermarks(t: Tables, key: Name, e: Execution, receivedAt: int, t': Tables)
    requires Watermarks(t) && LongOnly(t) && e.Valid() && Projected(t, key, e, receivedAt, t')
    ensures Watermarks(t')
  {
    hide Find, FillSum, Stored, ApplyLong, HasId;
    forall o | o in t'.commissions ensures t'.commissions[o].cumulative >= Stored(t'.executions, o) {
      Append(t.executions, Recorded(key, e, receivedAt), o, e.Held(), key);
    }
  }

  lemma ProjectedEvents(t: Tables, key: Name, e: Execution, receivedAt: int, t': Tables)
    requires Events(t) && LongOnly(t) && e.Valid() && Projected(t, key, e, receivedAt, t')
    ensures Events(t')
  {
    hide Find, FillSum, Stored, ApplyLong;
    assert t'.executions[|t.executions|].execution == e;
    assert HasId(t'.executions, e.id);
    forall id | Sourced(t, id) ensures Sourced(t', id) {
      if id.OfExecution? {
        var i :| 0 <= i < |t.executions| && t.executions[i].execution.id == id.execution;
        assert t'.executions[i].execution.id == id.execution;
      }
    }
  }

  lemma ProjectedRealized(t: Tables, key: Name, e: Execution, receivedAt: int, t': Tables, h: Holding)
    requires LongOnly(t) && e.Valid() && Projected(t, key, e, receivedAt, t')
    ensures RealizedFor(t'.orders, t'.profits, h) == RealizedFor(t.orders, t.profits, h) +
            if e.Held() == h then ApplyLong(RowOf(t.positions, e.Held()), e.fill).value.realized else 0.0
  {
    hide Find, FillSum, Stored, ApplyLong, HasId, ChargedOnce, Level;
    var step := ApplyLong(RowOf(t.positions, e.Held()), e.fill).value;
    var delta := Level(t', e.order) - Level(t, e.order);
    OpeningIsNotClosed(RowOf(t.positions, e.Held()), e.fill);
    SameHolders(t.orders, t'.orders, t.profits, h);
    AppendRealized(t'.orders, t.profits, RealizedEvent(e, step.realized), h);
    var mid := if step.closedTrade then t.profits + [RealizedEvent(e, step.realized)] else t.profits;
    assert t'.profits == if delta == 0.0 then mid else mid + [ChargeEvent(e, delta)];
    AppendRealized(t'.orders, mid, ChargeEvent(e, delta), h);
  }

  /** Who holds an order never changes, so neither does the profit attributed to a holding. */
  lemma {:induction false} SameHolders(orders: map<Name, OrderRow>, orders': map<Name, OrderRow>,
      profits: seq<ProfitEvent>, h: Holding)
    requires orders.Keys == orders'.Keys && forall o :: o in orders ==> HeldBy(orders[o]) == HeldBy(orders'[o])
    ensures RealizedFor(orders, profits, h) == RealizedFor(orders', profits, h)
  {
    if profits != [] {
      SameHolders(orders, orders', profits[..|profits| - 1], h);
    }
  }

  lemma ProjectedPositions(t: Tables, key: Name, e: Execution, receivedAt: int, t': Tables)
    requires Recordings(t.executions) && Positions(t) && LongOnly(t) && e.Valid()
    requires Projected(t, key, e, receivedAt, t') && Recordings(t'.executions)
    ensures Positions(t')
  {
    hide Find, FillSum, Stored, ApplyLong, HasId, ChargedOnce, Recordings, RealizedFor, FoldLong;
    forall h ensures Folded(t', h) {
      assert Folded(t, h);
      ProjectedRealized(t, key, e, receivedAt, t', h);
      Append(t.executions, Recorded(key, e, receivedAt), e.order, h, key);
      FillsAreValid(t.executions, h);
      FillsAreValid(t'.executions, h);
      if e.Held() == h {
        LongAppended(FillsFor(t.executions, h), e.fill);
      } else {
        assert FillsFor(t.executions, h) + [] == FillsFor(t.executions, h);
      }
    }
  }

  lemma {:induction false} LongAppended(fills: seq<Fill>, fill: Fill)
    requires AllValid(fills) && fill.Valid() && FoldLong(fills).Some?
    ensures AllValid(fills + [fill])
    ensures var before, step := FoldLong(fills).value, ApplyLong(FoldLong(fills).value.row, fill);
            FoldLong(fills + [fill]) ==
            if step.None? then None
                else Some(LongBooks(Some(step.value.position), before.realized + step.value.realized))
  {
    hide ApplyLong;
    assert (fills + [fill])[..|fills|] == fills;
  }

  lemma ProjectKeepsSound(t: Tables, key: Name, e: Execution, day: Name, receivedAt: int)
    requires Sound(t) && LongOnly(t) && e.Valid() && e.Key() == key && Find(t.executions, key).None?
    requires ProjectNew(t, key, e, day, receivedAt).Ok?
    ensures var t' := ProjectNew(t, key, e, day, receivedAt).value;
            && Sound(t') && Projected(t, key, e, receivedAt, t')
            && Find(t'.executions, key) == Some(e)
  {
    hide ProjectNew, Recordings, Filled, Positions, Events, Watermarks, Balanced, Find;
    var t' := ProjectNew(t, key, e, day, receivedAt).value;
    ProjectShape(t, key, e, day, receivedAt);
    ProjectedRecordings(t, key, e, receivedAt, t');
    ProjectedFilled(t, key, e, receivedAt, t');
    ProjectedWatermarks(t, key, e, receivedAt, t');
    ProjectedEvents(t, key, e, receivedAt, t');
    ProjectedPositions(t, key, e, receivedAt, t');
    hide Projected;
  }

  lemma MarkKeepsSound(t: Tables, key: Name)
    requires Sound(t) && key in t.inbox && Find(t.executions, key).Some?
    requires Find(t.executions, key).value.Identity() == t.inbox[key].execution.Identity()
    ensures Sound(t.(inbox := t.inbox[key := t.inbox[key].(applied := true)]))
  {
    hide Recordings, Filled, Positions, Watermarks, Events, Balanced, Find;
    OnlyInbox(t, t.(inbox := t.inbox[key := t.inbox[key].(applied := true)]));
  }

  /** Applying an entry keeps the invariant, marks exactly that entry, and projects its fill
      unless the same fill was recorded before. */
  lemma ApplyKeepsSound(t: Tables, key: Name)
    requires Sound(t) && LongOnly(t) && Apply(t, key).Ok?
    ensures var t' := Apply(t, key).value;
            && Sound(t')
            && key in t.inbox && t'.inbox == t.inbox[key := t.inbox[key].(applied := true)]
            && if Find(t.executions, key).Some? then t' == t.(inbox := t'.inbox)
               else Projected(t, key, t.inbox[key].execution, t.inbox[key].receivedAt, t'.(inbox := t.inbox))
  {
    hide ProjectNew, Recordings, Filled, Positions, Events, Watermarks, Balanced, Find;
    var entry := t.inbox[key];
    if !entry.applied {
      if Find(t.executions, key).None? {
        var projected := ProjectNew(t, key, entry.execution, entry.day, entry.receivedAt).value;
        ProjectKeepsSound(t, key, entry.execution, entry.day, entry.receivedAt);
        MarkKeepsSound(projected, key);
        assert Apply(t, key).value.(inbox := t.inbox) == projected;
      } else {
        MarkKeepsSound(t, key);
      }
    } else {
      assert t.inbox[key := entry.(applied := true)] == t.inbox;
    }
  }
}
