/** Recovery of the execution history as the agent runs it: stage what the provider reported,
    drain the inbox, charge the cumulative commissions, and only then move the watermark. */
module HistoryRecovery {
  import opened Decimals
  import opened Ledger
  import opened LedgerLemmas
  import opened LedgerInvariant
  import opened LedgerRuns
  import opened LedgerTheorems
  import opened LedgerStore
  import opened HistoryCoverage
  import H = HistoryCheckpoints
  import Accounting

  /** A fill the history reported, attributed to a strategy; history reports no commission
      per fill. */
  datatype RecoveredFill = RecoveredFill(trade: Name, order: Name, strategy: Name, instrument: Name,
                                         fill: Accounting.Fill, asset: Name, executedAt: int)
  {
    function Execution(): Ledger.Execution {
      Ledger.Execution(trade, trade, order, strategy, instrument, fill, asset, 0.0, executedAt)
    }
  }

  /** The cumulative commission the history reported for one order. */
  datatype RecoveredTotal = RecoveredTotal(order: Name, strategy: Name, amount: real, asset: Name, fills: nat,
      lastExecutedAt: int)

  lemma InboxStays(t: Tables, ops: seq<Op>, key: Name)
    requires Sound(t) && key in t.inbox
    ensures key in After(t, ops).inbox
  {
    hide Sound, After, Rises, SameOrder, SameEntry;
    RunsExtend(t, ops);
  }

  lemma {:induction false} RecordedStaysInRuns(t: Tables, ops: seq<Op>, key: Name)
    requires Sound(t) && IsRecorded(t, key)
    ensures IsRecorded(After(t, ops), key)
  {
    hide Sound, Step, IsRecorded;
    if ops != [] {
      RecordedStaysInRuns(t, ops[..|ops| - 1], key);
      RecordedStays(After(t, ops[..|ops| - 1]), ops[|ops| - 1], key);
    }
  }

  lemma LevelRises(t: Tables, op: Op, order: Name)
    requires Sound(t)
    ensures Level(Step(t, op), order) >= Level(t, order)
  {
    hide Sound, Step, Level, Charged, SameOrder, SameEntry;
    StepExtends(t, op);
    assert Rises(t, Step(t, op), order);
  }

  lemma LevelRisesInRuns(t: Tables, ops: seq<Op>, order: Name)
    requires Sound(t)
    ensures Level(After(t, ops), order) >= Level(t, order)
  {
    hide Sound, After, Level, Charged, SameOrder, SameEntry;
    RunsExtend(t, ops);
    assert Rises(t, After(t, ops), order);
  }

  /** A fill from the history: the reported fill under its trade's name, with no commission. */
  lemma HistoryFills(f: RecoveredFill)
    ensures f.Execution().commission == 0.0 && f.Execution().Key() == f.trade && f.Execution().order == f.order
    ensures f.Execution().Held() == Holding(f.strategy, f.instrument)
    ensures f.Execution().fill == f.fill && f.Execution().asset == f.asset && f.Execution().executedAt == f.executedAt
  {
  }

  /** Transactions that stage the first of these fills, one after another. */
  predicate StagesOnly(ops: seq<Op>, fills: seq<RecoveredFill>) {
    |ops| <= |fills| && forall i :: 0 <= i < |ops| ==> ops[i].StageOp? && ops[i].execution == fills[i].Execution()
  }

  method StageFills(store: Store, fills: seq<RecoveredFill>, day: (Name, int) -> Name, recoveryTo: int)
    returns (ok: bool, ghost ops: seq<Op>)
    requires store.Valid()
    modifies store
    ensures store.Valid() && store.db == After(old(store.db), ops)
    ensures StagesOnly(ops, fills)
    ensures ok ==> forall i :: 0 <= i < |fills| ==> fills[i].Execution().Key() in store.db.inbox
  {
    hide Sound, LongOnly, StagedValid, Step;
    ghost var before := store.db;
    ops := [];
    for index := 0 to |fills|
      invariant store.Valid() && store.db == After(before, ops)
      invariant |ops| == index && StagesOnly(ops, fills)
      invariant forall i :: 0 <= i < index ==> fills[i].Execution().Key() in store.db.inbox
    {
      var execution := fills[index].Execution();
      ghost var prior := store.db;
      ghost var op := StageOp(execution, recoveryTo / 1000 + index, day(execution.strategy, execution.executedAt));
      var staged := store.StageExecution(execution, recoveryTo / 1000 + index,
          day(execution.strategy, execution.executedAt));
      assert (ops + [op])[..|ops|] == ops;
      ops := ops + [op];
      if staged.Err? {
        return false, ops;
      }
      StagedIsThere(prior, execution, recoveryTo / 1000 + index, day(execution.strategy, execution.executedAt));
      forall i | 0 <= i < index ensures fills[i].Execution().Key() in store.db.inbox {
        StepKeepsInbox(prior, op, fills[i].Execution().Key());
      }
    }
    ok := true;
  }

  lemma StagedIsThere(t: Tables, e: Execution, receivedAt: int, day: Name)
    requires Sound(t) && Stage(t, e, receivedAt, day).Ok?
    ensures e.Key() in Step(t, StageOp(e, receivedAt, day)).inbox
  {
    hide Sound;
  }

  lemma StepKeepsInbox(t: Tables, op: Op, key: Name)
    requires Sound(t) && key in t.inbox
    ensures key in Step(t, op).inbox
  {
    hide Sound, Step, Rises, SameOrder, SameEntry;
    StepExtends(t, op);
  }

  method ChargeTotals(store: Store, totals: seq<RecoveredTotal>, day: (Name, int) -> Name, recoveryTo: int)
    returns (ok: bool, ghost ops: seq<Op>)
    requires store.Valid()
    modifies store
    ensures store.Valid() && store.db == After(old(store.db), ops) && forall op :: op in ops ==> op.ObserveOp?
    ensures ok ==> forall i :: 0 <= i < |totals| && totals[i].amount != 0.0 ==>
        Level(store.db, totals[i].order) >= totals[i].amount
  {
    hide Sound, LongOnly, StagedValid, Step, Level, Observe;
    ghost var before := store.db;
    ops := [];
    for index := 0 to |totals|
      invariant store.Valid() && store.db == After(before, ops) && forall op :: op in ops ==> op.ObserveOp?
      invariant forall i :: 0 <= i < index && totals[i].amount != 0.0 ==>
          Level(store.db, totals[i].order) >= totals[i].amount
    {
      var total := totals[index];
      if total.amount == 0.0 {
        continue;
      }
      if total.fills == 0 {
        return false, ops;
      }
      var tradingDay := day(total.strategy, total.lastExecutedAt);
      ghost var prior := store.db;
      ghost var op := ObserveOp(total.order, total.amount, total.asset, recoveryTo / 1000, tradingDay);
      var charged := store.ApplyCumulativeOrderCommission(total.order, total.amount, total.asset, recoveryTo / 1000,
          tradingDay);
      assert (ops + [op])[..|ops|] == ops;
      ops := ops + [op];
      if charged.Err? {
        return false, ops;
      }
      ObservedLevel(prior, total.order, total.amount, total.asset, recoveryTo / 1000, tradingDay);
      forall i | 0 <= i < index && totals[i].amount != 0.0
          ensures Level(store.db, totals[i].order) >= totals[i].amount {
        LevelRises(prior, op, totals[i].order);
      }
    }
    ok := true;
  }

  lemma ObservedLevel(t: Tables, order: Name, amount: real, asset: Name, observedAt: int, day: Name)
    requires Sound(t) && Observe(t, order, amount, asset, observedAt, day).Ok?
    ensures Level(Step(t, ObserveOp(order, amount, asset, observedAt, day)), order) == amount
  {
    hide Keyed, Filled, Positions, Watermarks, Events, Observe, Charged;
    ObserveRaises(t, order, amount, asset, observedAt, day);
  }

  // ---------------------------------------------------------------------------
  // One recovery, and the moves it amounts to
  // ---------------------------------------------------------------------------

  /** What a provider returns for a window, attributed to strategies. */
  datatype History = History(from: int, to: int, complete: bool, fills: seq<RecoveredFill>, totals: seq<RecoveredTotal>)
  {
    function Keys(): set<Name> {
      set i | 0 <= i < |fills| :: fills[i].Execution().Key()
    }
  }

  /** The window a recovery asks for: from the watermark less the overlap, or a bootstrap. */
  function WindowStart(latest: Option<H.Row>, recoveryTo: int, s: Settings): int {
    if latest.Some? then latest.value.coveredThrough - s.overlap else recoveryTo - s.bootstrap
  }

  /** The window of a recovery is the window of a scan. */
  lemma WindowIsScanned(w: World, s: Settings)
    requires s.Valid() && Sound(w.db) && w.scan.None? && ScanOf(w, s).from < ScanOf(w, s).to
    ensures Take(w, s, BeginScan).Some? && Take(w, s, BeginScan).value.scan == Some(ScanOf(w, s))
  {
    hide Sound, H.Latest;
  }

  /** The scan that a recovery in this world amounts to. */
  function ScanOf(w: World, s: Settings): Scan {
    var to := w.now - s.visibilityDelay;
    Scan(WindowStart(H.Latest(w.log), to, s), to, None, false)
  }

  /** The provider reports only what happened, and calls an answer complete when it is. */
  predicate Trustworthy(w: World, s: Settings, history: History) {
    && (forall i :: 0 <= i < |history.fills| ==> Happened(w, history.fills[i].Execution()))
    && (history.complete && history.from == ScanOf(w, s).from && history.to == ScanOf(w, s).to ==>
          CompleteAnswer(w, s, ScanOf(w, s), history.Keys()))
  }

  predicate AllReported(w: World, ops: seq<Op>) {
    forall i :: 0 <= i < |ops| ==> Reported(w, ops[i])
  }

  /** The moves of store transactions; one that fails is no move. */
  ghost function MovesOf(t: Tables, ops: seq<Op>): seq<Move>
    requires Sound(t)
  {
    if ops == [] then []
    else
      var init, last := ops[..|ops| - 1], ops[|ops| - 1];
      MovesOf(t, init) + if Do(After(t, init), last).Ok? then [Transact(last)] else []
  }

  lemma PlayAppended(w: World, s: Settings, moves: seq<Move>, move: Move)
    requires s.Valid() && Inv(w, s) && Play(w, s, moves).Some?
    ensures Sound(Play(w, s, moves).value.db)
    ensures Play(w, s, moves + [move]) == Take(Play(w, s, moves).value, s, move)
  {
    hide Inv, Take;
    assert (moves + [move])[..|moves|] == moves;
    InvIsSound(Play(w, s, moves).value, s);
  }

  lemma {:induction false} PlayTransactions(w: World, s: Settings, moves: seq<Move>, ops: seq<Op>)
    requires s.Valid() && Inv(w, s) && Play(w, s, moves).Some? && AllReported(Play(w, s, moves).value, ops)
    ensures var v := Play(w, s, moves).value;
            Sound(v.db) && Play(w, s, moves + MovesOf(v.db, ops)) == Some(v.(db := After(v.db, ops)))
  {
    hide Inv, Sound, Do, Play;
    var v := Play(w, s, moves).value;
    InvIsSound(v, s);
    if ops == [] {
      assert moves + [] == moves;
    } else {
      var init, last := ops[..|ops| - 1], ops[|ops| - 1];
      PlayTransactions(w, s, moves, init);
      assert Reported(v, last);
      if Do(After(v.db, init), last).Ok? {
        assert moves + (MovesOf(v.db, init) + [Transact(last)]) == moves + MovesOf(v.db, init) + [Transact(last)];
        PlayAppended(w, s, moves + MovesOf(v.db, init), Transact(last));
      } else {
        assert MovesOf(v.db, init) + [] == MovesOf(v.db, init);
      }
    }
  }

  /** Transactions alone, as a recovery that stops early leaves them. */
  lemma TransactionsOnly(w: World, s: Settings, ops: seq<Op>)
    requires s.Valid() && Inv(w, s) && AllReported(w, ops)
    ensures Sound(w.db) && Play(w, s, MovesOf(w.db, ops)) == Some(w.(db := After(w.db, ops)))
  {
    hide Inv, Sound, Take;
    PlayTransactions(w, s, [], ops);
    assert [] + MovesOf(w.db, ops) == MovesOf(w.db, ops);
  }

  /** A whole recovery: the scan, its answer, the transactions, the drain and the checkpoint. */
  lemma RecoveryMoves(w: World, s: Settings, report: set<Name>, ops: seq<Op>, createdAt: int)
      returns (moves: seq<Move>)
    requires s.Valid() && Inv(w, s) && w.scan.None? && AllReported(w, ops)
    requires ScanOf(w, s).from < ScanOf(w, s).to && CompleteAnswer(w, s, ScanOf(w, s), report)
    requires Pending(After(w.db, ops)) == {} && report <= After(w.db, ops).inbox.Keys
    requires H.Advance(w.log, s.digest, ScanOf(w, s).to, createdAt).Ok?
    ensures Play(w, s, moves).Some?
    ensures Play(w, s, moves).value.db == After(w.db, ops) && Play(w, s, moves).value.scan.None?
    ensures Ok(Play(w, s, moves).value.log) == H.Advance(w.log, s.digest, ScanOf(w, s).to, createdAt)
  {
    hide Inv, Sound, Play, Pending, CompleteAnswer, H.Latest, H.Advance, After;
    var asked := AnsweredScan(w, s, report);
    moves := [] + [BeginScan] + [Answer(report)];
    assert AllReported(asked, ops);
    PlayTransactions(w, s, moves, ops);
    moves := moves + MovesOf(w.db, ops);
    PlayAppended(w, s, moves, Drain);
    PlayAppended(w, s, moves + [Drain], CommitCheckpoint(createdAt));
    moves := moves + [Drain] + [CommitCheckpoint(createdAt)];
  }

  lemma AnsweredScan(w: World, s: Settings, report: set<Name>) returns (asked: World)
    requires s.Valid() && Inv(w, s) && w.scan.None?
    requires ScanOf(w, s).from < ScanOf(w, s).to && CompleteAnswer(w, s, ScanOf(w, s), report)
    ensures asked == w.(scan := Some(ScanOf(w, s).(report := Some(report))))
    ensures Play(w, s, [] + [BeginScan] + [Answer(report)]) == Some(asked)
  {
    hide Inv, Sound, Play, CompleteAnswer, H.Latest;
    InvIsSound(w, s);
    PlayNothing(w, s);
    var begun := w.(scan := Some(ScanOf(w, s)));
    assert Take(w, s, BeginScan) == Some(begun);
    PlayAppended(w, s, [], BeginScan);
    SameAnswer(w, begun, s, ScanOf(w, s), report);
    asked := w.(scan := Some(ScanOf(w, s).(report := Some(report))));
    assert Take(begun, s, Answer(report)) == Some(asked);
    PlayAppended(w, s, [] + [BeginScan], Answer(report));
  }

  /** What a complete answer is does not depend on the scans of a world. */
  lemma SameAnswer(w: World, v: World, s: Settings, scan: Scan, report: set<Name>)
    requires v.fills == w.fills && v.now == w.now
    ensures CompleteAnswer(v, s, scan, report) <==> CompleteAnswer(w, s, scan, report)
  {
  }

  lemma PlayNothing(w: World, s: Settings)
    requires s.Valid() && Inv(w, s)
    ensures Play(w, s, []) == Some(w)
  {
    hide Inv, Take;
  }

  lemma RecoveryReports(w: World, history: History, s: Settings, staged: seq<Op>, others: seq<Op>)
    requires Trustworthy(w, s, history)
    requires StagesOnly(staged, history.fills)
    requires forall op :: op in others ==> !op.StageOp?
    ensures AllReported(w, staged + others)
  {
    hide CompleteAnswer, Execution.Identity, Execution.Key;
    forall i | 0 <= i < |staged + others| ensures Reported(w, (staged + others)[i]) {
      if i < |staged| {
        assert Happened(w, history.fills[i].Execution());
      } else {
        assert others[i - |staged|] in others;
      }
    }
  }

  lemma ReportIsStaged(history: History, t: Tables, ops: seq<Op>)
    requires Sound(t) && forall i :: 0 <= i < |history.fills| ==> history.fills[i].Execution().Key() in t.inbox
    ensures history.Keys() <= After(t, ops).inbox.Keys
  {
    hide Sound, After;
    forall key | key in history.Keys() ensures key in After(t, ops).inbox {
      InboxStays(t, ops, key);
    }
  }

  /** Stages what was reported, drains, charges the totals and drains again. */
  method ApplyHistory(store: Store, history: History, day: (Name, int) -> Name, recoveryTo: int, ghost s: Settings,
      ghost w: World) returns (ok: bool, ghost ops: seq<Op>)
    requires store.Valid() && s.Valid() && Trustworthy(w, s, history)
    modifies store
    ensures store.Valid() && store.db == After(old(store.db), ops) && AllReported(w, ops)
    ensures ok ==>
              && Pending(store.db) == {} && history.Keys() <= store.db.inbox.Keys
              && (forall i :: 0 <= i < |history.fills| ==> IsRecorded(store.db, history.fills[i].Execution().Key()))
              && (forall i :: 0 <= i < |history.totals| && history.totals[i].amount != 0.0 ==>
                   Level(store.db, history.totals[i].order) >= history.totals[i].amount)
  {
    hide Sound, LongOnly, StagedValid, Step, Level, IsRecorded, Pending, Trustworthy, After, AllReported;
    ghost var before := store.db;
    var staged;
    staged, ops := StageFills(store, history.fills, day, recoveryTo);
    ghost var first := ops;
    RecoveryReports(w, history, s, first, []);
    assert first + [] == first;
    if !staged {
      return false, ops;
    }
    ghost var inbox := store.db;
    var drained;
    ghost var more;
    drained, more := store.DrainPendingExecutions();
    AfterJoins(before, first, more);
    RecoveryReports(w, history, s, first, more);
    if drained.Err? {
      return false, first + more;
    }
    var charged;
    ghost var charges;
    ghost var settled := store.db;
    charged, charges := ChargeTotals(store, history.totals, day, recoveryTo);
    AfterJoins(before, first + more, charges);
    RecoveryReports(w, history, s, first, more + charges);
    assert first + (more + charges) == first + more + charges;
    if !charged {
      return false, first + more + charges;
    }
    ghost var paid := store.db;
    ghost var last;
    drained, last := store.DrainPendingExecutions();
    AfterJoins(before, first + more + charges, last);
    RecoveryReports(w, history, s, first, more + charges + last);
    assert first + (more + charges + last) == first + more + charges + last;
    ops := first + more + charges + last;
    if drained.Err? {
      return false, ops;
    }
    AfterJoins(inbox, more, charges);
    AfterJoins(inbox, more + charges, last);
    ReportIsStaged(history, inbox, more + charges + last);
    forall i | 0 <= i < |history.fills| ensures IsRecorded(store.db, history.fills[i].Execution().Key()) {
      assert history.fills[i].Execution().Key() in history.Keys();
      DrainedIsRecorded(store.db, history.fills[i].Execution().Key());
    }
    forall i | 0 <= i < |history.totals| && history.totals[i].amount != 0.0
        ensures Level(store.db, history.totals[i].order) >= history.totals[i].amount {
      LevelRisesInRuns(paid, last, history.totals[i].order);
    }
    ok := true;
  }

  /** One recovery. When it succeeds, every reported fill is recorded, every reported total
      is charged, and the watermark is at the end of the window; when it fails, the watermark
      has not moved. Either way it amounts to moves of the coverage system. */
  method RecoverExecutionHistory(store: Store, checkpoints: H.CheckpointStore, reply: Option<History>,
      day: (Name, int) -> Name, s: Settings, recoveryTo: int, reconciled: bool, ghost w: World)
    returns (ok: bool, ghost moves: seq<Move>)
    requires store.Valid() && checkpoints.Valid() && s.Valid() && Inv(w, s) && w.scan.None?
    requires w.db == store.db && w.log == checkpoints.rows && checkpoints.digest == s.digest
    requires recoveryTo == w.now - s.visibilityDelay && (reply.Some? ==> Trustworthy(w, s, reply.value))
    modifies store, checkpoints
    ensures store.Valid() && checkpoints.Valid()
    ensures Play(w, s, moves).Some?
    ensures Play(w, s, moves).value.db == store.db && Play(w, s, moves).value.log == checkpoints.rows
    ensures ok ==>
              && reply.Some? && reply.value.complete
              && (forall i :: 0 <= i < |reply.value.fills| ==>
                   IsRecorded(store.db, reply.value.fills[i].Execution().Key()))
              && (forall i :: 0 <= i < |reply.value.totals| && reply.value.totals[i].amount != 0.0 ==>
                   Level(store.db, reply.value.totals[i].order) >= reply.value.totals[i].amount)
              && checkpoints.rows != [] && H.Latest(checkpoints.rows).value.coveredThrough == recoveryTo
    ensures !ok ==> checkpoints.rows == old(checkpoints.rows)
  {
    hide Sound, LongOnly, StagedValid, Step, Level, H.Latest, H.Climbing, H.Injective, H.Advance, IsRecorded, Pending,
         Inv, Play, Trustworthy, After, AllReported, CompleteAnswer;
    ghost var before := store.db;
    ghost var ops: seq<Op> := [];
    moves := [];
    PlayNothing(w, s);
    var latest := checkpoints.LoadLatest();
    var from := WindowStart(latest, recoveryTo, s);
    if from >= recoveryTo || reply.None? {
      return false, moves;
    }
    var history := reply.value;
    if !history.complete || history.from != from || history.to != recoveryTo {
      return false, moves;
    }
    ok, ops := ApplyHistory(store, history, day, recoveryTo, s, w);
    if !ok || !reconciled {
      TransactionsOnly(w, s, ops);
      return false, MovesOf(before, ops);
    }
    var advanced := checkpoints.AdvanceCheckpoint(recoveryTo, recoveryTo / 1000);
    WindowIsAhead(w, s);
    CompleteIsTrusted(w, s, history);
    moves := RecoveryMoves(w, s, history.Keys(), ops, recoveryTo / 1000);
    ok := advanced.Ok?;
  }

  lemma CompleteIsTrusted(w: World, s: Settings, history: History)
    requires Trustworthy(w, s, history) && history.complete
    requires history.from == ScanOf(w, s).from && history.to == ScanOf(w, s).to
    ensures CompleteAnswer(w, s, ScanOf(w, s), history.Keys())
  {
    hide CompleteAnswer, Happened;
  }

  lemma WindowIsAhead(w: World, s: Settings)
    requires s.Valid() && Inv(w, s)
    ensures w.log != [] ==> H.Latest(w.log).value.coveredThrough <= ScanOf(w, s).to
  {
    hide Sound, FillsKnown, H.Climbing, WindowRecorded, ScanFits;
  }
}
