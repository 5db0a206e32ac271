/** What every reachable ledger state satisfies: each fill is projected once, positions and
    fill levels follow from the recorded fills, commissions are charged exactly as the
    watermark rises, and daily statistics balance with the profit events. */
module LedgerLemmas {
  import opened Decimals
  import opened Accounting
  import opened Ledger

  // ---------------------------------------------------------------------------
  // Recorded executions
  // ---------------------------------------------------------------------------

  /** Fills of one strategy in one instrument, in the order they were applied. */
  function FillsFor(executions: seq<Recorded>, h: Holding): (fs: seq<Fill>) {
    if executions == [] then []
    else
      var last := executions[|executions| - 1].execution;
      FillsFor(executions[..|executions| - 1], h) + if last.Held() == h then [last.fill] else []
  }

  /** Commissions stored with the executions of one order. */
  function Stored(executions: seq<Recorded>, order: Name): real {
    if executions == [] then 0.0
    else
      var last := executions[|executions| - 1].execution;
      Stored(executions[..|executions| - 1], order) + if last.order == order then last.commission else 0.0
  }

  predicate Recordings(executions: seq<Recorded>) {
    && (forall i :: 0 <= i < |executions| ==>
          executions[i].execution.Valid() && executions[i].execution.Key() == executions[i].key)
    && (forall i, j :: 0 <= i < j < |executions| ==>
          executions[i].key != executions[j].key && executions[i].execution.id != executions[j].execution.id)
  }

  /** Every fill is recorded under its own key, and an applied entry's fill is recorded. */
  predicate Keyed(t: Tables) {
    && StagedValid(t) && Recordings(t.executions)
    && forall k :: k in t.inbox && t.inbox[k].applied ==>
         var found := Find(t.executions, k);
         found.Some? && found.value.Identity() == t.inbox[k].execution.Identity()
  }

  lemma {:induction false} FindIn(executions: seq<Recorded>, key: Name)
    requires Recordings(executions)
    ensures Find(executions, key).Some? <==> exists i :: 0 <= i < |executions| && executions[i].key == key
    ensures forall i :: 0 <= i < |executions| && executions[i].key == key ==>
        Find(executions, key) == Some(executions[i].execution)
  {
    if executions != [] {
      FindIn(executions[..|executions| - 1], key);
      if Find(executions[..|executions| - 1], key).Some? {
        var i :| 0 <= i < |executions| - 1 && executions[..|executions| - 1][i].key == key;
        assert executions[i].key == key;
      }
    }
  }

  lemma {:induction false} Append(executions: seq<Recorded>, r: Recorded, order: Name, h: Holding, key: Name)
    ensures Stored(executions + [r], order) == Stored(executions, order) + (if r.execution.order == order
        then r.execution.commission else 0.0)
    ensures FillSum(executions + [r], order) == FillSum(executions, order) + (if r.execution.order == order
        then r.execution.fill.quantity else 0.0)
    ensures FillsFor(executions + [r], h) == FillsFor(executions, h) + (if r.execution.Held() == h
        then [r.execution.fill] else [])
    ensures Find(executions + [r], key) == if r.key == key then Some(r.execution) else Find(executions, key)
  {
    assert (executions + [r])[..|executions|] == executions;
  }

  lemma {:induction false} FillsAreValid(executions: seq<Recorded>, h: Holding)
    requires Recordings(executions)
    ensures AllValid(FillsFor(executions, h))
  {
    if executions != [] {
      FillsAreValid(executions[..|executions| - 1], h);
    }
  }

  lemma {:induction false} StoredIsPersisted(executions: seq<Recorded>, order: Name)
    requires PersistedCommission(executions, order).Ok?
    ensures PersistedCommission(executions, order).value.total == Stored(executions, order)
  {
    if executions != [] {
      StoredIsPersisted(executions[..|executions| - 1], order);
    }
  }

  lemma {:induction false} StoredIsNonNegative(executions: seq<Recorded>, order: Name)
    requires Recordings(executions)
    ensures Stored(executions, order) >= 0.0
  {
    if executions != [] {
      StoredIsNonNegative(executions[..|executions| - 1], order);
    }
  }

  // ---------------------------------------------------------------------------
  // The watermark
  // ---------------------------------------------------------------------------

  /** The commission an order counts as charged: its watermark, or what is stored with its
      executions while it has none. */
  function Level(t: Tables, order: Name): real {
    if order in t.commissions then t.commissions[order].cumulative else Stored(t.executions, order)
  }

  /** No watermark is below the commissions stored with the order's executions. */
  predicate Watermarks(t: Tables) {
    forall o :: o in t.commissions ==>
      t.commissions[o].cumulative >= Stored(t.executions, o) &&
      o in t.orders && t.commissions[o].strategy == t.orders[o].strategy
  }

  /** Commission deltas charged to profit and loss for one order. */
  function Charged(profits: seq<ProfitEvent>, order: Name): real {
    if profits == [] then 0.0
    else
      var last := profits[|profits| - 1];
      Charged(profits[..|profits| - 1], order) +
      if last.order == order && last.component == CommissionComponent then last.amount else 0.0
  }

  /** One advance moves one watermark to its target, charging exactly the difference. */
  lemma AdvanceMoves(t: Tables, order: Name, strategy: Name, amount: real, asset: Name, observedAt: int)
    requires Advance(t, order, strategy, amount, asset, observedAt).Ok?
    ensures var a := Advance(t, order, strategy, amount, asset, observedAt).value;
            && order in a.commissions
            && a.commissions == t.commissions[order := a.commissions[order]]
            && a.commissions[order].strategy == strategy && a.commissions[order].asset == asset
            && a.commissions[order].cumulative == amount >= Level(t, order)
            && a.delta == amount - Level(t, order)
            && (a.applied <==> a.delta > 0.0)
            && (order in t.commissions ==> t.commissions[order].asset == asset)
            && (order in t.commissions && !a.applied ==> a.commissions == t.commissions)
            && (a.applied ==> a.commissions[order].observedAt >= observedAt)
            && (order in t.commissions ==> a.commissions[order].observedAt >= t.commissions[order].observedAt)
  {
    if order !in t.commissions {
      StoredIsPersisted(t.executions, order);
    }
  }

  /** A watermark at or above the target stays; otherwise it advances to it. */
  lemma SynchronizeMoves(t: Tables, order: Name, strategy: Name, amount: real, asset: Name, observedAt: int)
    requires Synchronize(t, order, strategy, amount, asset, observedAt).Ok?
    ensures var a := Synchronize(t, order, strategy, amount, asset, observedAt).value;
            && order in a.commissions
            && a.commissions == t.commissions[order := a.commissions[order]]
            && a.commissions[order].strategy == strategy && a.commissions[order].asset == asset
            && a.commissions[order].cumulative == Max(amount, Level(t, order))
            && a.delta == Max(amount, Level(t, order)) - Level(t, order)
            && (order in t.commissions ==> t.commissions[order].asset == asset)
  {
    hide Advance;
    if Synchronize(t, order, strategy, amount, asset, observedAt) == Advance(t, order, strategy, amount, asset,
        observedAt) {
      AdvanceMoves(t, order, strategy, amount, asset, observedAt);
    }
  }

  /** The delta of the first synchronization of a fill, which the code discards, is zero. */
  lemma DiscardedDeltaIsZero(t: Tables, e: Execution, receivedAt: int)
    requires Watermarks(t) && Baseline(t, e, receivedAt).Ok?
    ensures var stored := PersistedCommission(t.executions, e.order).value;
            var asset := if stored.asset.Some? then stored.asset.value else e.asset;
            var observedAt := if stored.observedAt == 0 then receivedAt else stored.observedAt;
            Synchronize(t, e.order, e.strategy, stored.total, asset, observedAt).value.delta == 0.0
    ensures var t' := Baseline(t, e, receivedAt).value;
            && e.order in t'.commissions
            && t' == t.(commissions := t.commissions[e.order := t'.commissions[e.order]])
            && t'.commissions[e.order].cumulative == Level(t, e.order)
            && t'.commissions[e.order].strategy == e.strategy
            && (e.order in t.commissions ==> t.commissions[e.order].asset == t'.commissions[e.order].asset)
  {
    hide Synchronize;
    var stored := PersistedCommission(t.executions, e.order).value;
    var asset := if stored.asset.Some? then stored.asset.value else e.asset;
    var observedAt := if stored.observedAt == 0 then receivedAt else stored.observedAt;
    StoredIsPersisted(t.executions, e.order);
    SynchronizeMoves(t, e.order, e.strategy, stored.total, asset, observedAt);
  }

  // ---------------------------------------------------------------------------
  // Daily statistics
  // ---------------------------------------------------------------------------

  /** What daily rows and profit events both keep count of. */
  datatype Measure = RealizedProfit | ChargedCommission | ClosedTrades

  function Part(d: Daily, m: Measure): real {
    match m
    case RealizedProfit => d.realized
    case ChargedCommission => d.commissions
    case ClosedTrades => d.trades as real
  }

  function Weight(e: ProfitEvent, m: Measure): real {
    match m
    case RealizedProfit => if e.component == RealizedComponent then e.amount else 0.0
    case ChargedCommission => if e.component == CommissionComponent then e.amount else 0.0
    case ClosedTrades => if e.component == RealizedComponent then 1.0 else 0.0
  }

  /** One measure of a strategy in one asset, over all days. */
  function DaysTotal(daily: seq<DailyRow>, strategy: Name, asset: Name, m: Measure): real {
    if daily == [] then 0.0
    else
      var last := daily[|daily| - 1];
      DaysTotal(daily[..|daily| - 1], strategy, asset, m) +
      if last.key.strategy == strategy && last.key.asset == asset then Part(last.values, m) else 0.0
  }

  /** The same measure over the profit events. */
  function EventsTotal(profits: seq<ProfitEvent>, strategy: Name, asset: Name, m: Measure): real {
    if profits == [] then 0.0
    else
      var last := profits[|profits| - 1];
      EventsTotal(profits[..|profits| - 1], strategy, asset, m) +
      if last.strategy == strategy && last.asset == asset then Weight(last, m) else 0.0
  }

  predicate Totalled(daily: seq<DailyRow>) {
    forall i :: 0 <= i < |daily| ==>
      var d := daily[i].values;
      d.total == d.realized + d.unrealized - d.commissions + d.funding
  }

  predicate OneRowADay(daily: seq<DailyRow>) {
    forall i, j :: 0 <= i < j < |daily| ==> daily[i].key != daily[j].key
  }

  /** Sums over days of realized profit, commissions and closed trades are those of the events. */
  ghost predicate Balanced(daily: seq<DailyRow>, profits: seq<ProfitEvent>) {
    && Totalled(daily) && OneRowADay(daily)
    && forall strategy, asset, m ::
         DaysTotal(daily, strategy, asset, m) == EventsTotal(profits, strategy, asset, m)
  }

  lemma {:induction false} UpsertTotal(daily: seq<DailyRow>, key: DayKey, values: Daily,
                                       strategy: Name, asset: Name, m: Measure)
    ensures var change := Part(values, m) - Part(DayOf(daily, key), m);
            DaysTotal(Upsert(daily, key, values), strategy, asset, m) ==
            DaysTotal(daily, strategy, asset, m) +
            if key.strategy == strategy && key.asset == asset then change else 0.0
  {
    if daily != [] {
      var init, last := daily[..|daily| - 1], daily[|daily| - 1];
      if last.key == key {
        assert (init + [DailyRow(key, values)])[..|init|] == init;
      } else {
        UpsertTotal(init, key, values, strategy, asset, m);
        assert (Upsert(init, key, values) + [last])[..|Upsert(init, key, values)|] == Upsert(init, key, values);
      }
    } else {
      assert [DailyRow(key, values)][..0] == [];
    }
  }

  lemma {:induction false} UpsertRows(daily: seq<DailyRow>, key: DayKey, values: Daily)
    requires Totalled(daily) && OneRowADay(daily)
    requires values.total == values.realized + values.unrealized - values.commissions + values.funding
    ensures Totalled(Upsert(daily, key, values)) && OneRowADay(Upsert(daily, key, values))
    ensures forall r :: r in Upsert(daily, key, values) ==> r.key == key || r in daily
  {
    if daily != [] && daily[|daily| - 1].key != key {
      var init, last := daily[..|daily| - 1], daily[|daily| - 1];
      UpsertRows(init, key, values);
      var up := Upsert(init, key, values);
      forall i | 0 <= i < |up| ensures up[i].key != last.key {
        assert up[i] in up;
      }
    }
  }

  lemma {:induction false} AppendEvent(profits: seq<ProfitEvent>, e: ProfitEvent, order: Name,
                                       strategy: Name, asset: Name, m: Measure)
    ensures Charged(profits + [e], order) ==
            Charged(profits, order) + (if e.order == order then Weight(e, ChargedCommission) else 0.0)
    ensures EventsTotal(profits + [e], strategy, asset, m) ==
            EventsTotal(profits, strategy, asset, m) +
            (if e.strategy == strategy && e.asset == asset then Weight(e, m) else 0.0)
  {
    assert (profits + [e])[..|profits|] == profits;
  }

  /** What one booking adds to a measure. */
  datatype Booking = Booking(realized: real, commission: real, closed: nat) {
    function Of(m: Measure): real {
      match m
      case RealizedProfit => realized
      case ChargedCommission => commission
      case ClosedTrades => closed as real
    }

    function AddedTo(d: Daily, complete: bool): Daily {
      WithTotal(d.(realized := d.realized + realized, commissions := d.commissions + commission,
                   trades := d.trades + closed, complete := complete))
    }
  }

  /** The events have grown by exactly the booking, under its strategy and asset. */
  ghost predicate GrownBy(before: seq<ProfitEvent>, after: seq<ProfitEvent>, key: DayKey, b: Booking) {
    forall strategy, asset, m ::
      EventsTotal(after, strategy, asset, m) ==
      EventsTotal(before, strategy, asset, m) + if key.strategy == strategy && key.asset == asset then b.Of(m) else 0.0
  }

  lemma {:induction false} BookingBalances(t: Tables, key: DayKey, b: Booking, complete: bool,
      profits: seq<ProfitEvent>)
    requires Balanced(t.daily, t.profits) && GrownBy(t.profits, profits, key, b)
    ensures Balanced(Upsert(t.daily, key, b.AddedTo(DayOf(t.daily, key), complete)), profits)
  {
    hide Upsert, DayOf, DaysTotal, EventsTotal, Totalled, OneRowADay;
    var now := b.AddedTo(DayOf(t.daily, key), complete);
    UpsertRows(t.daily, key, now);
    forall strategy, asset, m
      ensures DaysTotal(Upsert(t.daily, key, now), strategy, asset, m) == EventsTotal(profits, strategy, asset, m)
    {
      UpsertTotal(t.daily, key, now, strategy, asset, m);
    }
  }

  function RealizedEvent(e: Execution, amount: real): ProfitEvent {
    ProfitEvent(OfExecution(e.id, RealizedComponent), e.order, e.strategy, e.asset, RealizedComponent, amount)
  }

  function ChargeEvent(e: Execution, amount: real): ProfitEvent {
    ProfitEvent(OfExecution(e.id, CommissionComponent), e.order, e.strategy, e.asset, CommissionComponent, amount)
  }

  function FillBooking(realized: real, commission: real, closed: bool): Booking {
    Booking(realized, commission, if closed then 1 else 0)
  }

  lemma FillEventsWeigh(profits: seq<ProfitEvent>, e: Execution, delta: real, realized: real, closed: bool,
                        strategy: Name, asset: Name, m: Measure, o: Name)
    requires !closed ==> realized == 0.0
    ensures var more := WithFillEvents(profits, e, delta, realized, closed);
            && EventsTotal(more, strategy, asset, m) == EventsTotal(profits, strategy, asset, m) +
               (if e.strategy == strategy && e.asset == asset then FillBooking(realized, delta, closed).Of(m) else 0.0)
            && Charged(more, o) == Charged(profits, o) + if o == e.order then delta else 0.0
  {
    hide EventsTotal, Charged;
    var mid := if closed then profits + [RealizedEvent(e, realized)] else profits;
    AppendEvent(profits, RealizedEvent(e, realized), o, strategy, asset, m);
    AppendEvent(mid, ChargeEvent(e, delta), o, strategy, asset, m);
  }

  /** A realized event for a closing fill, and a commission event for a charge. */
  function WithFillEvents(profits: seq<ProfitEvent>, e: Execution, delta: real, realized: real,
                          closed: bool): seq<ProfitEvent> {
    var mid := if closed then profits + [RealizedEvent(e, realized)] else profits;
    if delta == 0.0 then mid else mid + [ChargeEvent(e, delta)]
  }

  lemma RecordFillEvents(t: Tables, e: Execution, day: Name, delta: real, realized: real, closed: bool)
    requires (!closed ==> realized == 0.0) && RecordFill(t, e, day, delta, realized, closed).Ok?
    ensures var profits := RecordFill(t, e, day, delta, realized, closed).value.profits;
            && profits == WithFillEvents(t.profits, e, delta, realized, closed)
            && GrownBy(t.profits, profits, DayKey(e.strategy, day, e.asset), FillBooking(realized, delta, closed))
            && forall o :: Charged(profits, o) == Charged(t.profits, o) + if o == e.order then delta else 0.0
  {
    hide Upsert, DayOf, HasEvent, WithTotal, EventsTotal, Charged, FillBooking;
    var more := WithFillEvents(t.profits, e, delta, realized, closed);
    forall strategy, asset, m
      ensures EventsTotal(more, strategy, asset, m) == EventsTotal(t.profits, strategy, asset, m) +
              if e.strategy == strategy && e.asset == asset then FillBooking(realized, delta, closed).Of(m) else 0.0
    {
      FillEventsWeigh(t.profits, e, delta, realized, closed, strategy, asset, m, e.order);
    }
    forall o ensures Charged(more, o) == Charged(t.profits, o) + if o == e.order then delta else 0.0 {
      FillEventsWeigh(t.profits, e, delta, realized, closed, e.strategy, e.asset, RealizedProfit, o);
    }
    assert GrownBy(t.profits, more, DayKey(e.strategy, day, e.asset), FillBooking(realized, delta, closed));
  }

  lemma RecordFillBalances(t: Tables, e: Execution, day: Name, delta: real, realized: real, closed: bool)
    requires Balanced(t.daily, t.profits) && (!closed ==> realized == 0.0)
    requires RecordFill(t, e, day, delta, realized, closed).Ok?
    ensures var t' := RecordFill(t, e, day, delta, realized, closed).value;
            && Balanced(t'.daily, t'.profits) && t' == t.(daily := t'.daily, profits := t'.profits)
            && forall o :: Charged(t'.profits, o) == Charged(t.profits, o) + if o == e.order then delta else 0.0
  {
    hide Upsert, DayOf, HasEvent, WithTotal, Balanced, GrownBy, Charged;
    var t' := RecordFill(t, e, day, delta, realized, closed).value;
    RecordFillEvents(t, e, day, delta, realized, closed);
    var key, booking := DayKey(e.strategy, day, e.asset), FillBooking(realized, delta, closed);
    BookingBalances(t, key, booking, false, t'.profits);
  }

  lemma RecordCommissionBalances(t: Tables, order: Name, strategy: Name, amount: real, asset: Name, delta: real,
      day: Name)
    requires Balanced(t.daily, t.profits)
    requires RecordCommission(t, order, strategy, amount, asset, delta, day).Ok?
    ensures var t' := RecordCommission(t, order, strategy, amount, asset, delta, day).value;
            && Balanced(t'.daily, t'.profits) && t' == t.(daily := t'.daily, profits := t'.profits)
            && forall o :: Charged(t'.profits, o) == Charged(t.profits, o) + if o == order then delta else 0.0
  {
    hide Upsert, DayOf, HasEvent, WithTotal, Balanced, EventsTotal, Charged;
    var t' := RecordCommission(t, order, strategy, amount, asset, delta, day).value;
    var e := ProfitEvent(OfOrder(order, asset, amount), order, strategy, asset, CommissionComponent, delta);
    var key, b := DayKey(strategy, day, asset), Booking(0.0, delta, 0);
    forall s, a, m
      ensures EventsTotal(t'.profits, s, a, m) ==
              EventsTotal(t.profits, s, a, m) + if strategy == s && asset == a then b.Of(m) else 0.0
    {
      AppendEvent(t.profits, e, order, s, a, m);
    }
    forall o ensures Charged(t'.profits, o) == Charged(t.profits, o) + if o == order then delta else 0.0 {
      AppendEvent(t.profits, e, o, strategy, asset, ChargedCommission);
    }
    var was := DayOf(t.daily, key);
    assert was.(commissions := was.commissions + delta) ==
           was.(realized := was.realized + 0.0, commissions := was.commissions + delta, trades := was.trades + 0,
                complete := was.complete);
    BookingBalances(t, key, b, was.complete, t'.profits);
  }
}
