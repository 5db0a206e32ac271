/** The durable ledger on values: the tables that one fill or one commission observation
    reads and writes, and what each SQL transaction makes of them. A failed transaction
    leaves the tables as they were, so it is a result without tables. */
module Ledger {
  import opened Decimals
  import opened Accounting

  type Name = string

  datatype Execution = Execution(id: Name, trade: Name, order: Name, strategy: Name, instrument: Name,
                                 fill: Fill, asset: Name, commission: real, executedAt: int)
  {
    predicate Valid() {
      fill.Valid() && commission >= 0.0
    }

    /** The exchange's trade identifier, or the execution's own where there is none. */
    function Key(): Name {
      if trade == "" then id else trade
    }

    /** Everything about a fill except its commission, which two sources may report differently. */
    function Identity(): Execution {
      this.(commission := 0.0)
    }

    function Held(): Holding {
      Holding(strategy, instrument)
    }
  }

  datatype Staged = Staged(execution: Execution, day: Name, receivedAt: int, applied: bool)

  datatype OrderRow = OrderRow(strategy: Name, instrument: Name, side: Side, requested: real, filled: real,
      status: Name)

  datatype Recorded = Recorded(key: Name, execution: Execution, receivedAt: int)

  datatype Holding = Holding(strategy: Name, instrument: Name)

  datatype PositionRow = PositionRow(position: Position, asset: Name)

  datatype Commission = Commission(strategy: Name, asset: Name, cumulative: real, observedAt: int)

  datatype DayKey = DayKey(strategy: Name, day: Name, asset: Name)

  datatype Daily = Daily(realized: real, unrealized: real, total: real, commissions: real, funding: real,
                         trades: nat, complete: bool)

  datatype DailyRow = DailyRow(key: DayKey, values: Daily)

  datatype Component = RealizedComponent | CommissionComponent

  /** Identifiers of profit events are digests of these fields. */
  datatype EventId = OfExecution(execution: Name, component: Component) | OfOrder(order: Name, asset: Name,
      cumulative: real)

  /** `order` is the order of the execution the event comes from, or the observed order. */
  datatype ProfitEvent = ProfitEvent(id: EventId, order: Name, strategy: Name, asset: Name, component: Component,
      amount: real)

  datatype Tables = Tables(orders: map<Name, OrderRow>, inbox: map<Name, Staged>, executions: seq<Recorded>,
                           positions: map<Holding, PositionRow>, commissions: map<Name, Commission>,
                           daily: seq<DailyRow>, profits: seq<ProfitEvent>)

  datatype LedgerError = InvalidExecution | DayChanged | IdentityChanged | NotStaged | OrderNotFound | OrderMismatch
                       | CommissionConflict | CommissionRegressed | InvalidCommission | DuplicateId
                       | ExceedsRequested | PositionAssetMismatch | ExceedsPosition | InvalidOrder | OrderExists

  const EMPTY_DAY := Daily(0.0, 0.0, 0.0, 0.0, 0.0, 0, false)

  // ---------------------------------------------------------------------------
  // Staging
  // ---------------------------------------------------------------------------

  /** Inserts a fill unless its key is known; a known key must mean the same fill. */
  function Stage(t: Tables, e: Execution, receivedAt: int, day: Name): Result<Tables, LedgerError> {
    if !e.Valid() then Err(InvalidExecution)
    else
      var inbox := if e.Key() in t.inbox then t.inbox else t.inbox[e.Key() := Staged(e, day, receivedAt, false)];
      var row := inbox[e.Key()];
      if row.day != day then Err(DayChanged)
      else if row.execution.Identity() != e.Identity() then Err(IdentityChanged)
      else Ok(t.(inbox := inbox))
  }

  // ---------------------------------------------------------------------------
  // Order rows
  // ---------------------------------------------------------------------------

  /** Statuses of the orders that count as open on the exchange. */
  const OPEN_STATUSES: set<Name> := {"pending", "accepted", "partially_filled", "unknown"}

  function OpenOrders(t: Tables): set<Name> {
    set o | o in t.orders && t.orders[o].status in OPEN_STATUSES
  }

  /** Inserts the row of an order that was placed or found on the exchange. */
  function Place(t: Tables, order: Name, row: OrderRow): Result<Tables, LedgerError> {
    if row.requested <= 0.0 || row.filled < 0.0 || row.filled > row.requested then Err(InvalidOrder)
    else if order in t.orders then Err(OrderExists)
    else Ok(t.(orders := t.orders[order := row]))
  }

  // ---------------------------------------------------------------------------
  // The commission watermark
  // ---------------------------------------------------------------------------

  datatype Persisted = Persisted(total: real, asset: Option<Name>, observedAt: int)

  /** The commissions stored with the executions of one order; they must share one asset. */
  function PersistedCommission(executions: seq<Recorded>, order: Name): Result<Persisted, LedgerError> {
    if executions == [] then Ok(Persisted(0.0, None, 0))
    else
      var last := executions[|executions| - 1];
      var before :- PersistedCommission(executions[..|executions| - 1], order);
      if last.execution.order != order then Ok(before)
      else if before.asset.Some? && before.asset.value != last.execution.asset then Err(CommissionConflict)
      else
        Ok(Persisted(before.total + last.execution.commission, Some(last.execution.asset),
                     Later(last.receivedAt, before.observedAt)))
  }

  function Later(x: int, y: int): (r: int)
    ensures r >= x && r >= y && (r == x || r == y)
  {
    if x > y then x else y
  }

  datatype Advanced = Advanced(commissions: map<Name, Commission>, delta: real, applied: bool)

  /** Raises an order's watermark to the target and returns by how much. Where there is no
      watermark yet it starts at what the stored executions were already charged. */
  function Advance(t: Tables, order: Name, strategy: Name, amount: real, asset: Name,
      observedAt: int): Result<Advanced, LedgerError> {
    var row :-
      if order in t.commissions then Ok(t.commissions[order])
      else
        var baseline :- PersistedCommission(t.executions, order);
        if baseline.asset.Some? && baseline.asset.value != asset then Err(CommissionConflict)
        else Ok(Commission(strategy, asset, baseline.total, Later(baseline.observedAt, observedAt)));
    if row.strategy != strategy || row.asset != asset then Err(CommissionConflict)
    else if amount < row.cumulative then Err(CommissionRegressed)
    else if amount == row.cumulative then Ok(Advanced(t.commissions[order := row], 0.0, false))
    else
      var next := row.(cumulative := amount, observedAt := Later(row.observedAt, observedAt));
      Ok(Advanced(t.commissions[order := next], amount - row.cumulative, true))
  }

  /** Like `Advance`, but a watermark already at or above the target stays where it is. */
  function Synchronize(t: Tables, order: Name, strategy: Name, amount: real, asset: Name,
      observedAt: int): Result<Advanced, LedgerError> {
    if order in t.commissions && (t.commissions[order].strategy != strategy || t.commissions[order].asset != asset) then
      Err(CommissionConflict)
    else if order in t.commissions && amount <= t.commissions[order].cumulative then
      Ok(Advanced(t.commissions, 0.0, false))
    else Advance(t, order, strategy, amount, asset, observedAt)
  }

  // ---------------------------------------------------------------------------
  // Daily statistics and profit events
  // ---------------------------------------------------------------------------

  function DayOf(daily: seq<DailyRow>, key: DayKey): Daily {
    if daily == [] then EMPTY_DAY
    else if daily[|daily| - 1].key == key then daily[|daily| - 1].values
    else DayOf(daily[..|daily| - 1], key)
  }

  function Upsert(daily: seq<DailyRow>, key: DayKey, values: Daily): seq<DailyRow> {
    if daily == [] then [DailyRow(key, values)]
    else if daily[|daily| - 1].key == key then daily[..|daily| - 1] + [DailyRow(key, values)]
    else Upsert(daily[..|daily| - 1], key, values) + [daily[|daily| - 1]]
  }

  predicate HasEvent(profits: seq<ProfitEvent>, id: EventId) {
    exists i :: 0 <= i < |profits| && profits[i].id == id
  }

  /** The identifier is the primary key: inserting it twice is an error. */
  function InsertEvent(profits: seq<ProfitEvent>, e: ProfitEvent): Result<seq<ProfitEvent>, LedgerError> {
    if HasEvent(profits, e.id) then Err(DuplicateId) else Ok(profits + [e])
  }

  function WithTotal(d: Daily): Daily {
    d.(total := d.realized + d.unrealized - d.commissions + d.funding)
  }

  /** Books realized profit and a commission delta of one fill. */
  function RecordFill(t: Tables, e: Execution, day: Name, delta: real, realized: real, closed: bool): Result<Tables,
      LedgerError> {
    var key := DayKey(e.strategy, day, e.asset);
    var was := DayOf(t.daily, key);
    var withRealized :-
      if !closed then Ok(t.profits)
      else InsertEvent(t.profits, ProfitEvent(OfExecution(e.id, RealizedComponent), e.order, e.strategy, e.asset,
          RealizedComponent, realized));
    var profits :-
      if delta == 0.0 then Ok(withRealized)
      else InsertEvent(withRealized, ProfitEvent(OfExecution(e.id, CommissionComponent), e.order, e.strategy,
          e.asset, CommissionComponent, delta));
    var now := WithTotal(was.(realized := was.realized + realized, commissions := was.commissions + delta,
                              trades := if closed then was.trades + 1 else was.trades, complete := false));
    Ok(t.(daily := Upsert(t.daily, key, now), profits := profits))
  }

  /** Books a commission delta seen in the order history. */
  function RecordCommission(t: Tables, order: Name, strategy: Name, amount: real, asset: Name, delta: real,
      day: Name): Result<Tables, LedgerError> {
    var key := DayKey(strategy, day, asset);
    var was := DayOf(t.daily, key);
    if delta <= 0.0 then Err(InvalidCommission)
    else
      var now := WithTotal(was.(commissions := was.commissions + delta));
      var profits :- InsertEvent(t.profits, ProfitEvent(OfOrder(order, asset, amount), order, strategy, asset,
          CommissionComponent, delta));
      Ok(t.(daily := Upsert(t.daily, key, now), profits := profits))
  }

  /** A cumulative commission reported by the order history. */
  function Observe(t: Tables, order: Name, amount: real, asset: Name, observedAt: int, day: Name): Result<Tables,
      LedgerError> {
    if amount < 0.0 then Err(InvalidCommission)
    else if order !in t.orders then Err(OrderNotFound)
    else
      var strategy := t.orders[order].strategy;
      var advanced :- Advance(t, order, strategy, amount, asset, observedAt);
      var next := t.(commissions := advanced.commissions);
      if !advanced.applied then Ok(next)
      else RecordCommission(next, order, strategy, amount, asset, advanced.delta, day)
  }

  // ---------------------------------------------------------------------------
  // Projecting one fill
  // ---------------------------------------------------------------------------

  function Find(executions: seq<Recorded>, key: Name): Option<Execution> {
    if executions == [] then None
    else if executions[|executions| - 1].key == key then Some(executions[|executions| - 1].execution)
    else Find(executions[..|executions| - 1], key)
  }

  predicate HasId(executions: seq<Recorded>, id: Name) {
    exists i :: 0 <= i < |executions| && executions[i].execution.id == id
  }

  function FillSum(executions: seq<Recorded>, order: Name): real {
    if executions == [] then 0.0
    else
      var last := executions[|executions| - 1];
      FillSum(executions[..|executions| - 1], order) + if last.execution.order == order
          then last.execution.fill.quantity else 0.0
  }

  function MatchingOrder(t: Tables, e: Execution): Result<OrderRow, LedgerError> {
    if e.order !in t.orders then Err(OrderNotFound)
    else
      var order := t.orders[e.order];
      if order.strategy != e.strategy || order.instrument != e.instrument || order.side != e.fill.side
          then Err(OrderMismatch)
      else Ok(order)
  }

  /** Puts the watermark at what is already stored before the fill is added. */
  function Baseline(t: Tables, e: Execution, receivedAt: int): Result<Tables, LedgerError> {
    var stored :- PersistedCommission(t.executions, e.order);
    var asset := if stored.asset.Some? then stored.asset.value else e.asset;
    var observedAt := if stored.observedAt == 0 then receivedAt else stored.observedAt;
    var advanced :- Synchronize(t, e.order, e.strategy, stored.total, asset, observedAt);
    Ok(t.(commissions := advanced.commissions))
  }

  /** Adds the execution row and raises the order's fill level. */
  function AddExecution(t: Tables, key: Name, e: Execution, order: OrderRow, receivedAt: int): Result<Tables,
      LedgerError> {
    if HasId(t.executions, e.id) then Err(DuplicateId)
    else
      var executions := t.executions + [Recorded(key, e, receivedAt)];
      var filled := Max(order.filled, FillSum(executions, e.order));
      if filled > order.requested then Err(ExceedsRequested)
      else
        var status := if filled == order.requested then "filled" else "partially_filled";
        Ok(t.(executions := executions, orders := t.orders[e.order := order.(filled := filled, status := status)]))
  }

  datatype Moved = Moved(positions: map<Holding, PositionRow>, realized: real, closed: bool)

  function RowOf(positions: map<Holding, PositionRow>, h: Holding): Option<Position> {
    if h in positions then Some(positions[h].position) else None
  }

  /** No stored position is short; the projection is long only. */
  predicate LongOnly(t: Tables) {
    forall h :: h in t.positions ==> t.positions[h].position.quantity >= 0.0
  }

  function MovePosition(t: Tables, e: Execution): Result<Moved, LedgerError>
    requires LongOnly(t) && e.Valid()
  {
    var h := e.Held();
    if h in t.positions && t.positions[h].asset != e.asset then Err(PositionAssetMismatch)
    else
      var step := ApplyLong(RowOf(t.positions, h), e.fill);
      if step.None? then Err(ExceedsPosition)
      else Ok(Moved(t.positions[h := PositionRow(step.value.position, e.asset)], step.value.realized,
          step.value.closedTrade))
  }

  /** Charges what the stored commissions exceed the watermark by, and books the fill. */
  function ChargeFill(t: Tables, e: Execution, day: Name, realized: real, closed: bool): Result<Tables, LedgerError> {
    var stored :- PersistedCommission(t.executions, e.order);
    var asset := if stored.asset.Some? then stored.asset.value else e.asset;
    var advanced :- Synchronize(t, e.order, e.strategy, stored.total, asset, stored.observedAt);
    RecordFill(t.(commissions := advanced.commissions), e, day, advanced.delta, realized, closed)
  }

  /** Everything one new fill changes. */
  function ProjectNew(t: Tables, key: Name, e: Execution, day: Name, receivedAt: int): Result<Tables, LedgerError>
    requires LongOnly(t) && e.Valid()
  {
    var order :- MatchingOrder(t, e);
    var based :- Baseline(t, e, receivedAt);
    var added :- AddExecution(based, key, e, order, receivedAt);
    var moved :- MovePosition(added, e);
    ChargeFill(added.(positions := moved.positions), e, day, moved.realized, moved.closed)
  }

  /** Applies a staged fill once; a fill already recorded only has its entry marked. */
  function Apply(t: Tables, key: Name): Result<Tables, LedgerError>
    requires LongOnly(t) && StagedValid(t)
  {
    if key !in t.inbox then Err(NotStaged)
    else if t.inbox[key].applied then Ok(t)
    else
      var entry := t.inbox[key];
      var found := Find(t.executions, key);
      var projected :-
        if found.None? then ProjectNew(t, key, entry.execution, entry.day, entry.receivedAt)
        else if found.value.Identity() != entry.execution.Identity() then Err(IdentityChanged)
        else Ok(t);
      Ok(projected.(inbox := projected.inbox[key := entry.(applied := true)]))
  }

  predicate StagedValid(t: Tables) {
    forall k :: k in t.inbox ==> t.inbox[k].execution.Valid() && t.inbox[k].execution.Key() == k
  }
}
