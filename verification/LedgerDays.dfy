/** Daily statistics day by day: which row a fill or a commission observation is booked in,
    what it adds there, and that every other row stays as it was. */
module LedgerDays {
  import opened Decimals
  import opened Accounting
  import opened Ledger
  import opened LedgerLemmas
  import opened LedgerInvariant
  import opened LedgerRuns
  import opened LedgerTheorems

  // ---------------------------------------------------------------------------
  // One booking
  // ---------------------------------------------------------------------------

  /** One row exists now, has grown by these amounts and is complete or not; every other key
      reads as before. */
  ghost predicate BookedOn(before: seq<DailyRow>, after: seq<DailyRow>, key: DayKey, realized: real, commission: real,
                           trades: nat, complete: bool)
  {
    var was, now := DayOf(before, key), DayOf(after, key);
    && DailyRow(key, now) in after
    && now.realized == was.realized + realized && now.commissions == was.commissions + commission
    && now.trades == was.trades + trades && now.complete == complete
    && now.unrealized == was.unrealized && now.funding == was.funding
    && now.total == now.realized + now.unrealized - now.commissions + now.funding
    && forall other :: other != key ==> DayOf(after, other) == DayOf(before, other)
  }

  lemma {:induction false} UpsertDay(daily: seq<DailyRow>, key: DayKey, values: Daily, other: DayKey)
    ensures DayOf(Upsert(daily, key, values), other) == if other == key then values else DayOf(daily, other)
    ensures DailyRow(key, values) in Upsert(daily, key, values)
  {
    if daily != [] && daily[|daily| - 1].key != key {
      var init, last := daily[..|daily| - 1], daily[|daily| - 1];
      UpsertDay(init, key, values, other);
      assert (Upsert(init, key, values) + [last])[..|Upsert(init, key, values)|] == Upsert(init, key, values);
    } else if daily != [] {
      var init := daily[..|daily| - 1];
      assert (init + [DailyRow(key, values)])[..|init|] == init;
    } else {
      assert [DailyRow(key, values)][..0] == [];
    }
  }

  /** A row that is there is what its key reads as, and a key without a row reads as nothing. */
  lemma {:induction false} DayIsRow(daily: seq<DailyRow>, key: DayKey)
    requires OneRowADay(daily)
    ensures forall i :: 0 <= i < |daily| && daily[i].key == key ==> DayOf(daily, key) == daily[i].values
    ensures (forall i :: 0 <= i < |daily| ==> daily[i].key != key) ==> DayOf(daily, key) == EMPTY_DAY
  {
    if daily != [] {
      DayIsRow(daily[..|daily| - 1], key);
    }
  }

  lemma UpsertBooks(daily: seq<DailyRow>, key: DayKey, now: Daily, realized: real, commission: real, trades: nat)
    requires now == WithTotal(now)
    requires var was := DayOf(daily, key);
             && now.realized == was.realized + realized && now.commissions == was.commissions + commission
             && now.trades == was.trades + trades && now.unrealized == was.unrealized && now.funding == was.funding
    ensures BookedOn(daily, Upsert(daily, key, now), key, realized, commission, trades, now.complete)
  {
    hide Upsert, DayOf;
    UpsertDay(daily, key, now, key);
    forall other | other != key ensures DayOf(Upsert(daily, key, now), other) == DayOf(daily, other) {
      UpsertDay(daily, key, now, other);
    }
  }

  lemma RecordFillBooks(t: Tables, e: Execution, day: Name, delta: real, realized: real, closed: bool)
    requires RecordFill(t, e, day, delta, realized, closed).Ok?
    ensures BookedOn(t.daily, RecordFill(t, e, day, delta, realized, closed).value.daily,
                     DayKey(e.strategy, day, e.asset), realized, delta, if closed then 1 else 0, false)
  {
    hide Upsert, DayOf, HasEvent, BookedOn;
    var key, trades := DayKey(e.strategy, day, e.asset), if closed then 1 else 0;
    var was := DayOf(t.daily, key);
    var now := WithTotal(was.(realized := was.realized + realized, commissions := was.commissions + delta,
                              trades := was.trades + trades, complete := false));
    UpsertBooks(t.daily, key, now, realized, delta, trades);
  }

  lemma RecordCommissionBooks(t: Tables, order: Name, strategy: Name, amount: real, asset: Name, delta: real, day: Name)
    requires RecordCommission(t, order, strategy, amount, asset, delta, day).Ok?
    ensures BookedOn(t.daily, RecordCommission(t, order, strategy, amount, asset, delta, day).value.daily,
                     DayKey(strategy, day, asset), 0.0, delta, 0,
                     DayOf(t.daily, DayKey(strategy, day, asset)).complete)
  {
    hide Upsert, DayOf, HasEvent, BookedOn;
    var key := DayKey(strategy, day, asset);
    var was := DayOf(t.daily, key);
    UpsertBooks(t.daily, key, WithTotal(was.(commissions := was.commissions + delta)), 0.0, delta, 0);
  }

  /** What a fill realizes against the position before it: nothing for a purchase, the gain over
      the average price for a sale. */
  function Gain(positions: map<Holding, PositionRow>, e: Execution): real {
    if e.fill.side == Buy || e.Held() !in positions then 0.0
    else (e.fill.price - positions[e.Held()].position.average) * e.fill.quantity
  }

  function Sales(e: Execution): nat {
    if e.fill.side == Sell then 1 else 0
  }

  lemma MovedGain(t: Tables, e: Execution)
    requires LongOnly(t) && e.Valid() && MovePosition(t, e).Ok?
    ensures MovePosition(t, e).value.realized == Gain(t.positions, e)
    ensures (if MovePosition(t, e).value.closed then 1 else 0) == Sales(e)
  {
    hide WeightedAverage;
  }

  lemma ChargeFillBooks(t: Tables, e: Execution, day: Name, realized: real, closed: bool)
    requires e.order in t.commissions && ChargeFill(t, e, day, realized, closed).Ok?
    ensures var t' := ChargeFill(t, e, day, realized, closed).value;
            && e.order in t'.commissions
            && var delta := t'.commissions[e.order].cumulative - t.commissions[e.order].cumulative;
               BookedOn(t.daily, t'.daily, DayKey(e.strategy, day, e.asset), realized, delta, if closed then 1
                   else 0, false)
  {
    hide Synchronize, RecordFill, BookedOn;
    var stored := PersistedCommission(t.executions, e.order).value;
    var asset := if stored.asset.Some? then stored.asset.value else e.asset;
    SynchronizeMoves(t, e.order, e.strategy, stored.total, asset, stored.observedAt);
    var advanced := Synchronize(t, e.order, e.strategy, stored.total, asset, stored.observedAt).value;
    var next := t.(commissions := advanced.commissions);
    RecordFillBooks(next, e, day, advanced.delta, realized, closed);
    RecordFillKeeps(next, e, day, advanced.delta, realized, closed);
  }

  lemma RecordFillKeeps(t: Tables, e: Execution, day: Name, delta: real, realized: real, closed: bool)
    requires RecordFill(t, e, day, delta, realized, closed).Ok?
    ensures RecordFill(t, e, day, delta, realized, closed).value.commissions == t.commissions
  {
    hide Upsert, DayOf, HasEvent;
  }

  lemma ProjectBooks(t: Tables, key: Name, e: Execution, day: Name, receivedAt: int)
    requires LongOnly(t) && Watermarks(t) && e.Valid() && ProjectNew(t, key, e, day, receivedAt).Ok?
    ensures var t' := ProjectNew(t, key, e, day, receivedAt).value;
            BookedOn(t.daily, t'.daily, DayKey(e.strategy, day, e.asset), Gain(t.positions, e),
                     Level(t', e.order) - Level(t, e.order), Sales(e), false)
  {
    hide ChargeFill, Baseline, HasId, FillSum, Watermarks, ApplyLong, Stored, BookedOn, MovePosition, Gain, Sales;
    var order := MatchingOrder(t, e).value;
    var based := Baseline(t, e, receivedAt).value;
    DiscardedDeltaIsZero(t, e, receivedAt);
    var added := AddExecution(based, key, e, order, receivedAt).value;
    var moved := MovePosition(added, e).value;
    MovedGain(added, e);
    ChargeFillBooks(added.(positions := moved.positions), e, day, moved.realized, moved.closed);
  }

  /** Applying a new fill books exactly its gain, the commission its order's level rises by and
      its closed trade, in the row of its strategy, the day it was staged with and its asset, which
      is not complete then. */
  lemma FillBooks(t: Tables, key: Name)
    requires Sound(t) && LongOnly(t) && StagedValid(t) && Apply(t, key).Ok?
    requires !t.inbox[key].applied && Find(t.executions, key).None?
    ensures var e, t' := t.inbox[key].execution, Apply(t, key).value;
            BookedOn(t.daily, t'.daily, DayKey(e.strategy, t.inbox[key].day, e.asset), Gain(t.positions, e),
                     Level(t', e.order) - Level(t, e.order), Sales(e), false)
  {
    hide ProjectNew, Recordings, Filled, Positions, Events, Balanced, Find, BookedOn, Gain, Sales;
    var entry := t.inbox[key];
    ProjectBooks(t, key, entry.execution, entry.day, entry.receivedAt);
    var projected := ProjectNew(t, key, entry.execution, entry.day, entry.receivedAt).value;
    SameLevel(projected, Apply(t, key).value, entry.execution.order);
  }

  /** An accepted observation that raises a level books exactly the rise, in the row of the
      order's strategy, the given day and the asset; one that does not touches no row. */
  lemma ObservationBooks(t: Tables, order: Name, amount: real, asset: Name, observedAt: int, day: Name)
    requires Sound(t) && Observe(t, order, amount, asset, observedAt, day).Ok?
    ensures var t' := Observe(t, order, amount, asset, observedAt, day).value;
            && order in t.orders
            && if amount > Level(t, order) then
                 BookedOn(t.daily, t'.daily, DayKey(t.orders[order].strategy, day, asset), 0.0,
                          amount - Level(t, order), 0,
                          DayOf(t.daily, DayKey(t.orders[order].strategy, day, asset)).complete)
               else t'.daily == t.daily
  {
    hide Advance, RecordCommission, Level, BookedOn, Sound;
    var strategy := t.orders[order].strategy;
    AdvanceMoves(t, order, strategy, amount, asset, observedAt);
    var advanced := Advance(t, order, strategy, amount, asset, observedAt).value;
    if advanced.applied {
      RecordCommissionBooks(t.(commissions := advanced.commissions), order, strategy, amount, asset, advanced.delta,
          day);
    }
  }

  // ---------------------------------------------------------------------------
  // Whole runs
  // ---------------------------------------------------------------------------

  /** The row a transaction books in, if it books anything. */
  ghost function BookedRow(t: Tables, op: Op): Option<DayKey>
    requires Sound(t)
  {
    if Do(t, op).Err? then None
    else
      match op
      case ApplyOp(key) =>
        if key !in t.inbox || t.inbox[key].applied || Find(t.executions, key).Some? then None
        else
          var e := t.inbox[key].execution;
          Some(DayKey(e.strategy, t.inbox[key].day, e.asset))
      case ObserveOp(order, amount, asset, _, day) =>
        if order !in t.orders || amount <= Level(t, order) then None
        else Some(DayKey(t.orders[order].strategy, day, asset))
      case StageOp(_, _, _) => None
      case PlaceOp(_, _) => None
  }

  /** How much of a measure a transaction books: a new fill its gain and its sale, and either
      kind the rise of its order's level. */
  ghost function Share(t: Tables, op: Op, m: Measure): real
    requires Sound(t) && BookedRow(t, op).Some?
  {
    var order := if op.ApplyOp? then t.inbox[op.key].execution.order else op.order;
    match m
    case RealizedProfit => if op.ApplyOp? then Gain(t.positions, t.inbox[op.key].execution) else 0.0
    case ChargedCommission => Level(Step(t, op), order) - Level(t, order)
    case ClosedTrades => if op.ApplyOp? then Sales(t.inbox[op.key].execution) as real else 0.0
  }

  /** What the fills and observations of a run that belong to one row book there. */
  ghost function BookedInRun(t: Tables, ops: seq<Op>, key: DayKey, m: Measure): real
    requires Sound(t)
  {
    if ops == [] then 0.0
    else
      var before, op := After(t, ops[..|ops| - 1]), ops[|ops| - 1];
      BookedInRun(t, ops[..|ops| - 1], key, m) +
      if BookedRow(before, op) == Some(key) then Share(before, op, m) else 0.0
  }

  lemma BookedPart(before: seq<DailyRow>, after: seq<DailyRow>, booked: DayKey, realized: real, commission: real,
                   trades: nat, complete: bool, key: DayKey, m: Measure)
    requires BookedOn(before, after, booked, realized, commission, trades, complete)
    ensures Part(DayOf(after, key), m) == Part(DayOf(before, key), m) +
            if key != booked then 0.0
            else match m case RealizedProfit => realized case ChargedCommission => commission
                 case ClosedTrades => trades as real
    ensures DayOf(after, key).unrealized == DayOf(before, key).unrealized
    ensures DayOf(after, key).funding == DayOf(before, key).funding
  {
    hide DayOf;
  }

  lemma StepBooks(t: Tables, op: Op, key: DayKey, m: Measure)
    requires Sound(t)
    ensures var t' := Step(t, op);
            && Part(DayOf(t'.daily, key), m) == Part(DayOf(t.daily, key), m) +
               (if BookedRow(t, op) == Some(key) then Share(t, op, m) else 0.0)
            && DayOf(t'.daily, key).unrealized == DayOf(t.daily, key).unrealized
            && DayOf(t'.daily, key).funding == DayOf(t.daily, key).funding
  {
    hide Keyed, Filled, Positions, Watermarks, Balanced, Events, Stage, Apply, Observe, Find, BookedOn, DayOf, Level,
         Part, Gain, Sales, Projected;
    var t' := Step(t, op);
    if Do(t, op).Ok? {
      match op
      case StageOp(e, receivedAt, day) => StageKeepsSound(t, e, receivedAt, day);
      case PlaceOp(_, _) =>
      case ObserveOp(order, amount, asset, observedAt, day) =>
        ObservationBooks(t, order, amount, asset, observedAt, day);
        ObservedLevel(t, order, amount, asset, observedAt, day);
        if amount > Level(t, order) {
          BookedPart(t.daily, t'.daily, DayKey(t.orders[order].strategy, day, asset), 0.0, amount - Level(t, order), 0,
                     DayOf(t.daily, DayKey(t.orders[order].strategy, day, asset)).complete, key, m);
        }
      case ApplyOp(k) =>
        SoundIsLong(t);
        SoundIsStaged(t);
        ApplyKeepsSound(t, k);
        if !t.inbox[k].applied && Find(t.executions, k).None? {
          var e := t.inbox[k].execution;
          FillBooks(t, k);
          BookedPart(t.daily, t'.daily, DayKey(e.strategy, t.inbox[k].day, e.asset), Gain(t.positions, e),
                     Level(t', e.order) - Level(t, e.order), Sales(e), false, key, m);
        } else {
          KnownFillBooksNothing(t, k);
        }
    }
  }

  lemma ObservedLevel(t: Tables, order: Name, amount: real, asset: Name, observedAt: int, day: Name)
    requires Sound(t) && Observe(t, order, amount, asset, observedAt, day).Ok?
    ensures Level(Observe(t, order, amount, asset, observedAt, day).value, order) == amount
  {
    hide Keyed, Filled, Positions, Watermarks, Events, Observe, Charged;
    ObserveRaises(t, order, amount, asset, observedAt, day);
  }

  lemma KnownFillBooksNothing(t: Tables, key: Name)
    requires Sound(t) && LongOnly(t) && StagedValid(t) && Apply(t, key).Ok?
    requires t.inbox[key].applied || Find(t.executions, key).Some?
    ensures Apply(t, key).value.daily == t.daily
  {
    hide ProjectNew, Sound, Find;
  }

  /** After any run, the row of a strategy, a day and an asset is what it was plus what exactly
      the fills and observations of that strategy, day and asset booked; unrealized profit and
      funding are untouched, and the total follows. */
  lemma {:induction false} DaysAddUp(t: Tables, ops: seq<Op>, key: DayKey, m: Measure)
    requires Sound(t)
    ensures var was, now := DayOf(t.daily, key), DayOf(After(t, ops).daily, key);
            && Part(now, m) == Part(was, m) + BookedInRun(t, ops, key, m)
            && now.unrealized == was.unrealized && now.funding == was.funding
            && now.total == now.realized + now.unrealized - now.commissions + now.funding
  {
    hide Sound, Step, DayOf, Part, BookedRow, Share;
    DayIsTotalled(After(t, ops), key);
    if ops != [] {
      DaysAddUp(t, ops[..|ops| - 1], key, m);
      StepBooks(After(t, ops[..|ops| - 1]), ops[|ops| - 1], key, m);
    }
  }

  lemma DayIsTotalled(t: Tables, key: DayKey)
    requires Sound(t)
    ensures var d := DayOf(t.daily, key); d.total == d.realized + d.unrealized - d.commissions + d.funding
  {
    hide Keyed, Filled, Positions, Watermarks, Events, DaysTotal, EventsTotal, DayOf;
    DayIsRow(t.daily, key);
  }
}
