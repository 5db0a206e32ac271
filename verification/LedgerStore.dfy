/** The SQLite store as the code has it: a transaction works on rows in place and either
    commits all of its changes or none. Every step is proved against the tables-to-tables
    functions of `Ledger`. */
module LedgerStore {
  import opened Decimals
  import opened Accounting
  import opened Ledger
  import opened LedgerLemmas
  import opened LedgerInvariant
  import opened LedgerRuns

  /** Rows as one transaction sees and changes them. */
  class Transaction {
    var orders: map<Name, OrderRow>
    var inbox: map<Name, Staged>
    var executions: seq<Recorded>
    var positions: map<Holding, PositionRow>
    var commissions: map<Name, Commission>
    var daily: seq<DailyRow>
    var profits: seq<ProfitEvent>

    function Rows(): Tables
      reads this
    {
      Tables(orders, inbox, executions, positions, commissions, daily, profits)
    }

    constructor (t: Tables)
      ensures Rows() == t
    {
      orders, inbox, executions, positions := t.orders, t.inbox, t.executions, t.positions;
      commissions, daily, profits := t.commissions, t.daily, t.profits;
    }

    method PersistedOrderCommission(order: Name) returns (r: Result<Persisted, LedgerError>)
      ensures r == PersistedCommission(executions, order)
    {
      var total, asset, observedAt := 0.0, None, 0;
      for i := 0 to |executions|
        invariant PersistedCommission(executions[..i], order) == Ok(Persisted(total, asset, observedAt))
      {
        assert executions[..i + 1][..i] == executions[..i];
        var row := executions[i];
        if row.execution.order == order {
          if asset.Some? && asset.value != row.execution.asset {
            PersistedConflict(executions, i + 1, order);
            return Err(CommissionConflict);
          }
          asset := Some(row.execution.asset);
          total := total + row.execution.commission;
          if row.receivedAt > observedAt {
            observedAt := row.receivedAt;
          }
        }
      }
      assert executions[..|executions|] == executions;
      r := Ok(Persisted(total, asset, observedAt));
    }

    method AdvanceOrderCommission(order: Name, strategy: Name, amount: real, asset: Name, observedAt: int)
      returns (r: Result<(real, bool), LedgerError>)
      modifies `commissions
      ensures match Advance(old(Rows()), order, strategy, amount, asset, observedAt)
              case Ok(a) => r == Ok((a.delta, a.applied)) && commissions == a.commissions
              case Err(e) => r == Err(e)
    {
      var seen := observedAt;
      if order !in commissions {
        var baseline := PersistedOrderCommission(order);
        if baseline.Err? {
          return Err(baseline.error);
        }
        if baseline.value.asset.Some? && baseline.value.asset.value != asset {
          return Err(CommissionConflict);
        }
        if baseline.value.observedAt > seen {
          seen := baseline.value.observedAt;
        }
        commissions := commissions[order := Commission(strategy, asset, baseline.value.total, seen)];
      }
      var row := commissions[order];
      if row.strategy != strategy || row.asset != asset {
        return Err(CommissionConflict);
      }
      if amount < row.cumulative {
        return Err(CommissionRegressed);
      }
      if amount == row.cumulative {
        return Ok((0.0, false));
      }
      if row.observedAt > seen {
        seen := row.observedAt;
      }
      commissions := commissions[order := row.(cumulative := amount, observedAt := seen)];
      r := Ok((amount - row.cumulative, true));
    }

    method SynchronizeCommission(order: Name, strategy: Name, amount: real, asset: Name, observedAt: int)
      returns (r: Result<real, LedgerError>)
      modifies `commissions
      ensures match Synchronize(old(Rows()), order, strategy, amount, asset, observedAt)
              case Ok(a) => r == Ok(a.delta) && commissions == a.commissions
              case Err(e) => r == Err(e)
    {
      hide PersistedCommission;
      if order in commissions {
        var row := commissions[order];
        if row.strategy != strategy || row.asset != asset {
          return Err(CommissionConflict);
        }
        if amount <= row.cumulative {
          return Ok(0.0);
        }
      }
      var advanced := AdvanceOrderCommission(order, strategy, amount, asset, observedAt);
      r := if advanced.Ok? then Ok(advanced.value.0) else Err(advanced.error);
    }

    method ApplyPosition(e: Execution) returns (r: Result<(real, bool), LedgerError>)
      requires LongOnly(Rows()) && e.Valid()
      modifies `positions
      ensures match MovePosition(old(Rows()), e)
              case Ok(m) => r == Ok((m.realized, m.closed)) && positions == m.positions
              case Err(error) => r == Err(error)
    {
      hide WeightedAverage, Spread;
      var h := e.Held();
      var position, average := 0.0, e.fill.price;
      if h in positions {
        position, average := positions[h].position.quantity, positions[h].position.average;
        if positions[h].asset != e.asset {
          return Err(PositionAssetMismatch);
        }
      }
      var next, nextAverage, realized, closed := position, average, 0.0, false;
      if e.fill.side == Buy {
        next := position + e.fill.quantity;
        if position == 0.0 {
          nextAverage := e.fill.price;
        } else {
          nextAverage := WeightedAverage(average, position, e.fill.price, e.fill.quantity);
        }
      } else {
        if e.fill.quantity > position {
          return Err(ExceedsPosition);
        }
        next := position - e.fill.quantity;
        realized := Spread(average, e.fill.price, e.fill.quantity);
        closed := true;
      }
      positions := positions[h := PositionRow(Position(next, nextAverage), e.asset)];
      r := Ok((realized, closed));
    }

    method InsertProfit(e: ProfitEvent) returns (r: Result<(), LedgerError>)
      modifies `profits
      ensures match InsertEvent(old(profits), e)
              case Ok(more) => r == Ok(()) && profits == more
              case Err(error) => r == Err(error) && profits == old(profits)
    {
      if exists i :: 0 <= i < |profits| && profits[i].id == e.id {
        return Err(DuplicateId);
      }
      profits := profits + [e];
      r := Ok(());
    }

    method ApplyExecutionProfit(e: Execution, day: Name, delta: real, realized: real,
        closed: bool) returns (r: Result<(), LedgerError>)
      modifies `daily, `profits
      ensures match RecordFill(old(Rows()), e, day, delta, realized, closed)
              case Ok(t) => r == Ok(()) && Rows() == t
              case Err(error) => r == Err(error)
    {
      hide Upsert, DayOf, HasEvent;
      var key := DayKey(e.strategy, day, e.asset);
      var was := DayOf(daily, key);
      var trades := was.trades;
      if closed {
        trades := trades + 1;
        var inserted := InsertProfit(ProfitEvent(OfExecution(e.id, RealizedComponent), e.order, e.strategy, e.asset,
            RealizedComponent, realized));
        if inserted.Err? {
          return Err(inserted.error);
        }
      }
      if delta != 0.0 {
        var inserted := InsertProfit(ProfitEvent(OfExecution(e.id, CommissionComponent), e.order, e.strategy,
            e.asset, CommissionComponent, delta));
        if inserted.Err? {
          return Err(inserted.error);
        }
      }
      var nextRealized, nextCommissions := was.realized + realized, was.commissions + delta;
      var total := nextRealized + was.unrealized - nextCommissions + was.funding;
      daily := Upsert(daily, key, Daily(nextRealized, was.unrealized, total, nextCommissions, was.funding, trades,
          false));
      r := Ok(());
    }

    method ApplyCommissionDelta(order: Name, strategy: Name, amount: real, asset: Name, delta: real, day: Name)
      returns (r: Result<(), LedgerError>)
      modifies `daily, `profits
      ensures match RecordCommission(old(Rows()), order, strategy, amount, asset, delta, day)
              case Ok(t) => r == Ok(()) && Rows() == t
              case Err(error) => r == Err(error)
    {
      hide Upsert, DayOf, HasEvent;
      if delta <= 0.0 {
        return Err(InvalidCommission);
      }
      var key := DayKey(strategy, day, asset);
      var was := DayOf(daily, key);
      var nextCommissions := was.commissions + delta;
      var total := was.realized + was.unrealized - nextCommissions + was.funding;
      daily := Upsert(daily, key, was.(total := total, commissions := nextCommissions));
      r := InsertProfit(ProfitEvent(OfOrder(order, asset, amount), order, strategy, asset, CommissionComponent, delta));
    }

    /** The sum of an order's recorded quantities. */
    method ExecutedQuantity(order: Name) returns (sum: real)
      ensures sum == FillSum(executions, order)
    {
      sum := 0.0;
      for i := 0 to |executions|
        invariant sum == FillSum(executions[..i], order)
      {
        assert executions[..i + 1][..i] == executions[..i];
        if executions[i].execution.order == order {
          sum := sum + executions[i].execution.fill.quantity;
        }
      }
      assert executions[..|executions|] == executions;
    }

    method InsertExecution(key: Name, e: Execution, order: OrderRow, receivedAt: int) returns (r: Result<(),
        LedgerError>)
      modifies `executions, `orders
      ensures match AddExecution(old(Rows()), key, e, order, receivedAt)
              case Ok(t) => r == Ok(()) && Rows() == t
              case Err(error) => r == Err(error)
    {
      hide FillSum;
      if exists i :: 0 <= i < |executions| && executions[i].execution.id == e.id {
        return Err(DuplicateId);
      }
      executions := executions + [Recorded(key, e, receivedAt)];
      var executed := ExecutedQuantity(e.order);
      var nextFilled := Max(order.filled, executed);
      if nextFilled > order.requested {
        return Err(ExceedsRequested);
      }
      var status := "partially_filled";
      if nextFilled == order.requested {
        status := "filled";
      }
      orders := orders[e.order := order.(filled := nextFilled, status := status)];
      r := Ok(());
    }

    /** Sets the watermark to what is stored, and returns the delta charged by it. */
    method SynchronizeStored(e: Execution, fallback: Option<int>) returns (r: Result<real, LedgerError>)
      modifies `commissions
      ensures fallback.Some? ==>
                match Baseline(old(Rows()), e, fallback.value)
                case Ok(t) => r.Ok? && Rows() == t
                case Err(error) => r == Err(error)
      ensures fallback.None? ==>
                match PersistedCommission(old(executions), e.order)
                case Err(error) => r == Err(error)
                case Ok(stored) =>
                  var asset := if stored.asset.Some? then stored.asset.value else e.asset;
                  match Synchronize(old(Rows()), e.order, e.strategy, stored.total, asset, stored.observedAt)
                  case Ok(a) => r == Ok(a.delta) && commissions == a.commissions
                  case Err(error) => r == Err(error)
    {
      hide PersistedCommission, Synchronize;
      var stored := PersistedOrderCommission(e.order);
      if stored.Err? {
        return Err(stored.error);
      }
      var asset := if stored.value.asset.Some? then stored.value.asset.value else e.asset;
      var observedAt := stored.value.observedAt;
      if fallback.Some? && observedAt == 0 {
        observedAt := fallback.value;
      }
      r := SynchronizeCommission(e.order, e.strategy, stored.value.total, asset, observedAt);
    }

    method ApplyExecutionProjection(key: Name, e: Execution, day: Name, receivedAt: int) returns (r: Result<bool,
        LedgerError>)
      requires LongOnly(Rows()) && e.Valid()
      modifies this
      ensures var found := Find(old(executions), key);
              if found.None? then
                match ProjectNew(old(Rows()), key, e, day, receivedAt)
                case Ok(t) => r == Ok(true) && Rows() == t
                case Err(error) => r == Err(error)
              else if found.value.Identity() != e.Identity() then r == Err(IdentityChanged)
              else r == Ok(false) && Rows() == old(Rows())
    {
      hide PersistedCommission, Synchronize, Find, AddExecution, RecordFill, MovePosition;
      var found := Find(executions, key);
      if found.Some? {
        if found.value.Identity() != e.Identity() {
          return Err(IdentityChanged);
        }
        return Ok(false);
      }
      if e.order !in orders {
        return Err(OrderNotFound);
      }
      var order := orders[e.order];
      if order.strategy != e.strategy || order.instrument != e.instrument || order.side != e.fill.side {
        return Err(OrderMismatch);
      }
      var based := SynchronizeStored(e, Some(receivedAt));
      if based.Err? {
        return Err(based.error);
      }
      var inserted := InsertExecution(key, e, order, receivedAt);
      if inserted.Err? {
        return Err(inserted.error);
      }
      var moved := ApplyPosition(e);
      if moved.Err? {
        return Err(moved.error);
      }
      var charged := SynchronizeStored(e, None);
      if charged.Err? {
        return Err(charged.error);
      }
      var booked := ApplyExecutionProfit(e, day, charged.value, moved.value.0, moved.value.1);
      if booked.Err? {
        return Err(booked.error);
      }
      r := Ok(true);
    }
  }

  /** Keys of the entries still to be applied. */
  function Pending(t: Tables): set<Name> {
    set k | k in t.inbox && !t.inbox[k].applied
  }

  /** The committed database. */
  class Store {
    var db: Tables

    ghost predicate Valid()
      reads this
    {
      Sound(db) && LongOnly(db) && StagedValid(db)
    }

    constructor (t: Tables)
      requires Sound(t)
      ensures Valid() && db == t
    {
      SoundIsUsable(t);
      db := t;
    }

    /** Inserts a fill, or recognizes one already staged under the same key. */
    method StageExecution(e: Execution, receivedAt: int, day: Name) returns (r: Result<bool, LedgerError>)
      requires Valid()
      modifies this
      ensures Valid() && db == Step(old(db), StageOp(e, receivedAt, day))
      ensures match Stage(old(db), e, receivedAt, day)
              case Ok(t) => r == Ok(e.Key() !in old(db).inbox)
              case Err(error) => r == Err(error)
    {
      hide Sound, LongOnly;
      ghost var before := db;
      ghost var after := Step(db, StageOp(e, receivedAt, day));
      SoundIsUsable(after);
      if !e.Valid() {
        return Err(InvalidExecution);
      }
      var key := e.Key();
      var tx := new Transaction(db);
      var inserted := key !in tx.inbox;
      if inserted {
        tx.inbox := tx.inbox[key := Staged(e, day, receivedAt, false)];
      }
      var row := tx.inbox[key];
      if row.day != day {
        return Err(DayChanged);
      }
      if row.execution.Identity() != e.Identity() {
        return Err(IdentityChanged);
      }
      db := tx.Rows();
      r := Ok(inserted);
    }

    /** Applies one staged fill in one transaction; returns whether it was new. */
    method ApplyStagedExecution(key: Name) returns (r: Result<bool, LedgerError>)
      requires Valid()
      modifies this
      ensures Valid() && db == Step(old(db), ApplyOp(key))
      ensures match Apply(old(db), key)
              case Ok(t) => r == Ok(!old(db).inbox[key].applied && Find(old(db).executions, key).None?)
              case Err(error) => r == Err(error)
    {
      hide Sound, LongOnly, ProjectNew, Find;
      ghost var after := Step(db, ApplyOp(key));
      SoundIsUsable(after);
      if key !in db.inbox {
        return Err(NotStaged);
      }
      var entry := db.inbox[key];
      if entry.applied {
        return Ok(false);
      }
      var tx := new Transaction(db);
      var applied := tx.ApplyExecutionProjection(key, entry.execution, entry.day, entry.receivedAt);
      if applied.Err? {
        return Err(applied.error);
      }
      tx.inbox := tx.inbox[key := entry.(applied := true)];
      db := tx.Rows();
      r := applied;
    }

    /** The order row that a submitted intent is resolved with. */
    method InsertExchangeOrder(order: Name, row: OrderRow) returns (r: Result<(), LedgerError>)
      requires Valid()
      modifies this
      ensures Valid() && db == Step(old(db), PlaceOp(order, row))
      ensures match Place(old(db), order, row)
              case Ok(t) => r == Ok(()) && t.orders == db.orders
              case Err(error) => r == Err(error)
    {
      hide Sound, LongOnly;
      ghost var after := Step(db, PlaceOp(order, row));
      SoundIsUsable(after);
      if row.requested <= 0.0 || row.filled < 0.0 || row.filled > row.requested {
        return Err(InvalidOrder);
      }
      if order in db.orders {
        return Err(OrderExists);
      }
      var tx := new Transaction(db);
      tx.orders := tx.orders[order := row];
      db := tx.Rows();
      r := Ok(());
    }

    method ApplyCumulativeOrderCommission(order: Name, amount: real, asset: Name, observedAt: int, day: Name)
      returns (r: Result<(real, bool), LedgerError>)
      requires Valid()
      modifies this
      ensures Valid() && db == Step(old(db), ObserveOp(order, amount, asset, observedAt, day))
      ensures r.Ok? <==> Observe(old(db), order, amount, asset, observedAt, day).Ok?
      ensures r.Ok? ==> r.value == (amount - Level(old(db), order), amount > Level(old(db), order))
    {
      hide Sound, LongOnly, Advance, RecordCommission, Level;
      ghost var before := db;
      ghost var after := Step(db, ObserveOp(order, amount, asset, observedAt, day));
      SoundIsUsable(after);
      if amount < 0.0 {
        return Err(InvalidCommission);
      }
      if order !in db.orders {
        return Err(OrderNotFound);
      }
      var strategy := db.orders[order].strategy;
      var tx := new Transaction(db);
      var advanced := tx.AdvanceOrderCommission(order, strategy, amount, asset, observedAt);
      if advanced.Err? {
        return Err(advanced.error);
      }
      AdvanceMoves(before, order, strategy, amount, asset, observedAt);
      if advanced.value.1 {
        var booked := tx.ApplyCommissionDelta(order, strategy, amount, asset, advanced.value.0, day);
        if booked.Err? {
          return Err(booked.error);
        }
      }
      db := tx.Rows();
      r := advanced;
    }

    /** A page of pending entries, in any order; shorter than the limit only when it holds
        all of them. */
    method ListPendingExecutions(limit: nat) returns (keys: seq<Name>)
      ensures forall i :: 0 <= i < |keys| ==> keys[i] in Pending(db)
      ensures forall i, j :: 0 <= i < j < |keys| ==> keys[i] != keys[j]
      ensures |keys| <= limit && (|keys| < limit ==> forall k :: k in Pending(db) ==> k in keys)
    {
      keys := [];
      var remaining := Pending(db);
      while |keys| < limit && remaining != {}
        invariant |keys| <= limit && remaining <= Pending(db)
        invariant forall i :: 0 <= i < |keys| ==> keys[i] in Pending(db) && keys[i] !in remaining
        invariant forall i, j :: 0 <= i < j < |keys| ==> keys[i] != keys[j]
        invariant forall k :: k in Pending(db) ==> k in remaining || k in keys
        decreases |remaining|
      {
        var k :| k in remaining;
        remaining := remaining - {k};
        keys := keys + [k];
      }
    }

    /** Applies one page; the entries of the page leave the pending set one by one. */
    method ApplyPage(keys: seq<Name>) returns (r: Result<(), LedgerError>, ghost ops: seq<Op>)
      requires Valid()
      requires forall i :: 0 <= i < |keys| ==> keys[i] in Pending(db)
      requires forall i, j :: 0 <= i < j < |keys| ==> keys[i] != keys[j]
      modifies this
      ensures Valid() && db == After(old(db), ops) && forall op :: op in ops ==> op.ApplyOp?
      ensures r.Ok? ==> forall k :: k in Pending(db) <==> k in Pending(old(db)) && k !in keys
    {
      hide Sound, LongOnly, Find, Step;
      ghost var before := db;
      ops := [];
      for i := 0 to |keys|
        invariant Valid() && db == After(before, ops) && forall op :: op in ops ==> op.ApplyOp?
        invariant forall k :: k in Pending(db) <==> k in Pending(before) && k !in keys[..i]
      {
        assert keys[i] !in keys[..i] && keys[..i + 1] == keys[..i] + [keys[i]];
        ghost var prior := db;
        var applied := ApplyStagedExecution(keys[i]);
        assert (ops + [ApplyOp(keys[i])])[..|ops|] == ops;
        ops := ops + [ApplyOp(keys[i])];
        if applied.Err? {
          return Err(applied.error), ops;
        }
        ApplyingSettles(prior, keys[i]);
      }
      assert keys[..|keys|] == keys;
      r := Ok(());
    }

    /** Pages through the inbox until a short page shows that nothing is pending, also when
        the number of entries is a multiple of the page size. */
    method DrainPendingExecutions() returns (r: Result<(), LedgerError>, ghost ops: seq<Op>)
      requires Valid()
      modifies this
      ensures Valid() && db == After(old(db), ops) && forall op :: op in ops ==> op.ApplyOp?
      ensures r.Ok? ==> Pending(db) == {}
    {
      hide Sound, LongOnly, Step;
      ghost var before := db;
      ops := [];
      while true
        invariant Valid() && db == After(before, ops) && forall op :: op in ops ==> op.ApplyOp?
        decreases |Pending(db)|
      {
        ghost var pending := Pending(db);
        var keys := ListPendingExecutions(BATCH_SIZE);
        var page;
        ghost var more;
        page, more := ApplyPage(keys);
        AfterJoins(before, ops, more);
        ops := ops + more;
        if page.Err? {
          return Err(page.error), ops;
        }
        if |keys| < BATCH_SIZE {
          break;
        }
        assert keys[0] in pending && keys[0] !in Pending(db);
        SmallerSet(Pending(db), pending, keys[0]);
      }
      r := Ok(());
    }
  }

  const BATCH_SIZE: nat := 100

  lemma SmallerSet(smaller: set<Name>, larger: set<Name>, key: Name)
    requires smaller <= larger && key in larger && key !in smaller
    ensures |smaller| < |larger|
  {
    var rest := larger - {key};
    assert smaller <= rest;
    SubsetSize(smaller, rest);
  }

  lemma SubsetSize(a: set<Name>, b: set<Name>)
    requires a <= b
    ensures |a| <= |b|
  {
    assert b == a + (b - a);
  }

  lemma {:induction false} AfterJoins(t: Tables, a: seq<Op>, b: seq<Op>)
    requires Sound(t)
    ensures After(After(t, a), b) == After(t, a + b)
  {
    hide Sound, Step;
    if b == [] {
      assert a + b == a;
    } else {
      assert (a + b)[..|a + b| - 1] == a + b[..|b| - 1];
      AfterJoins(t, a, b[..|b| - 1]);
    }
  }

  /** Applying a pending entry takes exactly it out of the pending set. */
  lemma ApplyingSettles(t: Tables, key: Name)
    requires Sound(t) && LongOnly(t) && StagedValid(t) && Apply(t, key).Ok?
    ensures forall k :: k in Pending(Step(t, ApplyOp(key))) <==> k in Pending(t) && k != key
  {
    hide Recordings, Filled, Positions, Watermarks, Balanced, Events, Apply, Find, Projected;
    ApplyKeepsSound(t, key);
  }

  lemma {:induction false} PersistedConflict(executions: seq<Recorded>, n: nat, order: Name)
    requires n <= |executions| && PersistedCommission(executions[..n], order).Err?
    ensures PersistedCommission(executions, order) == PersistedCommission(executions[..n], order)
  {
    if n == |executions| {
      assert executions[..n] == executions;
    } else {
      assert executions[..|executions| - 1][..n] == executions[..n];
      PersistedConflict(executions[..|executions| - 1], n, order);
    }
  }
}
