/** History coverage as a transition system: fills happen, the stream stages some of them,
    scans ask the provider for a window, the drain applies what is staged, and only then the
    watermark moves. A crash may interrupt a scan anywhere. */
module HistoryCoverage {
  import opened Decimals
  import opened Ledger
  import opened LedgerLemmas
  import opened LedgerInvariant
  import opened LedgerRuns
  import opened LedgerStore
  import H = HistoryCheckpoints

  datatype Settings = Settings(bootstrap: int, overlap: int, visibilityDelay: int, digest: int -> int) {
    ghost predicate Valid() {
      bootstrap > 0 && overlap > 0 && visibilityDelay >= 0 && H.Injective(digest)
    }
  }

  /** A recovery in progress: its window, what the provider reported, and whether all of it
      has been drained since. */
  datatype Scan = Scan(from: int, to: int, report: Option<set<Name>>, drained: bool)

  /** `fills` is what really happened on the exchange, `origin` where coverage began. */
  datatype World = World(now: int, fills: map<Name, Execution>, db: Tables, log: seq<H.Row>, scan: Option<Scan>,
      origin: Option<int>)

  datatype Move =
    | Tick(time: int)
    | Trade(execution: Execution)                 // a fill happens now
    | Transact(op: Op)                            // a store transaction on reported fills
    | BeginScan
    | Answer(report: set<Name>)                   // the provider's complete answer
    | Drain                                       // the drain found nothing pending
    | CommitCheckpoint(createdAt: int)
    | Crash

  predicate InWindow(w: World, scan: Scan, k: Name)
    requires k in w.fills
  {
    scan.from <= w.fills[k].executedAt < scan.to
  }

  /** The contract of a complete history: every fill of the window old enough to be visible. */
  predicate CompleteAnswer(w: World, s: Settings, scan: Scan, report: set<Name>) {
    && report <= w.fills.Keys
    && forall k :: k in w.fills && InWindow(w, scan, k) && w.fills[k].executedAt + s.visibilityDelay <= w.now ==>
         k in report
  }

  /** The execution is a fill of this world, whatever commission its source reports. */
  predicate Happened(w: World, e: Execution) {
    e.Key() in w.fills && e.Identity() == w.fills[e.Key()].Identity()
  }

  /** Only fills that happened are ever staged. */
  predicate Reported(w: World, op: Op) {
    op.StageOp? ==> Happened(w, op.execution)
  }

  ghost function Take(w: World, s: Settings, step: Move): Option<World>
    requires s.Valid() && Sound(w.db)
  {
    match step
    case Tick(time) => if time < w.now then None else Some(w.(now := time))
    case Trade(e) =>
      if e.Key() in w.fills || e.executedAt != w.now then None else Some(w.(fills := w.fills[e.Key() := e]))
    case Transact(op) =>
      if !Reported(w, op) || Do(w.db, op).Err? then None else Some(w.(db := Step(w.db, op)))
    case BeginScan =>
      var to := w.now - s.visibilityDelay;
      var latest := H.Latest(w.log);
      var from := if latest.Some? then latest.value.coveredThrough - s.overlap else to - s.bootstrap;
      if w.scan.Some? || from >= to then None else Some(w.(scan := Some(Scan(from, to, None, false))))
    case Answer(report) =>
      if w.scan.None? || w.scan.value.report.Some? || !CompleteAnswer(w, s, w.scan.value, report) then None
      else Some(w.(scan := Some(w.scan.value.(report := Some(report)))))
    case Drain =>
      if w.scan.None? || w.scan.value.report.None? || Pending(w.db) != {} then None
      else if !(w.scan.value.report.value <= w.db.inbox.Keys) then None
      else Some(w.(scan := Some(w.scan.value.(drained := true))))
    case CommitCheckpoint(createdAt) =>
      if w.scan.None? || !w.scan.value.drained then None
      else
        var advanced := H.Advance(w.log, s.digest, w.scan.value.to, createdAt);
        if advanced.Err? then None
        else Some(w.(log := advanced.value, scan := None, origin := if w.origin.None? then Some(w.scan.value.from)
            else w.origin))
    case Crash => Some(w.(scan := None))
  }

  /** A scan starts exactly when its window is not empty. The window reaches from the overlap
      before the watermark, or the bootstrap before its end where there is no watermark, up to
      the visibility delay ago. */
  lemma ScanReaches(w: World, s: Settings, at: int)
    requires s.Valid() && Sound(w.db) && w.scan.None?
    ensures var end := w.now - s.visibilityDelay;
            var begun := Take(w, s, BeginScan);
            var reach := if w.log == [] then end - at <= s.bootstrap
                         else H.Latest(w.log).value.coveredThrough - at <= s.overlap;
            && (begun.Some? <==> if w.log == [] then s.bootstrap > 0
                                 else H.Latest(w.log).value.coveredThrough < end + s.overlap)
            && (begun.Some? ==>
                  begun.value.scan.Some? && begun.value == w.(scan := begun.value.scan) &&
                  (begun.value.scan.value.from <= at < begun.value.scan.value.to <==> reach && at < end))
  {
    hide Sound, H.Latest;
  }

  predicate IsRecorded(t: Tables, key: Name) {
    Find(t.executions, key).Some?
  }

  /** Every fill executed in the window is recorded. */
  predicate WindowRecorded(w: World, from: int, to: int) {
    forall k :: k in w.fills && from <= w.fills[k].executedAt < to ==> IsRecorded(w.db, k)
  }

  predicate FillsKnown(w: World) {
    forall k :: k in w.fills ==> w.fills[k].Key() == k && w.fills[k].executedAt <= w.now
  }

  /** What a scan in progress has established. */
  predicate ScanFits(w: World, s: Settings, scan: Scan) {
    && scan.from < scan.to <= w.now - s.visibilityDelay
    && (w.log != [] ==> scan.from <= H.Latest(w.log).value.coveredThrough <= scan.to)
    && (scan.report.Some? ==>
          forall k :: k in w.fills && scan.from <= w.fills[k].executedAt < scan.to ==> k in scan.report.value)
    && (scan.drained ==> scan.report.Some? && forall k :: k in scan.report.value ==> IsRecorded(w.db, k))
  }

  ghost predicate Inv(w: World, s: Settings)
    requires s.Valid()
  {
    && Sound(w.db) && FillsKnown(w) && H.Climbing(w.log, s.digest)
    && (w.log == [] <==> w.origin.None?)
    && (w.log != [] ==>
          && H.Latest(w.log).value.coveredThrough <= w.now - s.visibilityDelay
          && WindowRecorded(w, w.origin.value, H.Latest(w.log).value.coveredThrough))
    && (w.scan.Some? ==> ScanFits(w, s, w.scan.value))
  }

  lemma RecordedStays(t: Tables, op: Op, key: Name)
    requires Sound(t) && IsRecorded(t, key)
    ensures IsRecorded(Step(t, op), key)
  {
    hide Do, Step, Find, Filled, Positions, Watermarks, Balanced, Events, StagedValid, Rises, SameOrder, SameEntry;
    var t' := Step(t, op);
    StepExtends(t, op);
    FindIn(t.executions, key);
    FindIn(t'.executions, key);
    var i :| 0 <= i < |t.executions| && t.executions[i].key == key;
    assert t'.executions[..|t.executions|][i] == t.executions[i];
    assert t'.executions[i].key == key;
  }

  lemma TransactKeepsInv(w: World, s: Settings, op: Op)
    requires s.Valid() && Inv(w, s) && Take(w, s, Transact(op)).Some?
    ensures Inv(Take(w, s, Transact(op)).value, s)
  {
    hide Sound, Do, Step, H.Latest, H.Climbing, IsRecorded;
    var w' := Take(w, s, Transact(op)).value;
    forall k | IsRecorded(w.db, k) ensures IsRecorded(w'.db, k) {
      RecordedStays(w.db, op, k);
    }
  }

  /** Everything applied is recorded, so once nothing is pending everything staged is. */
  lemma DrainedIsRecorded(t: Tables, key: Name)
    requires Sound(t) && Pending(t) == {} && key in t.inbox
    ensures IsRecorded(t, key)
  {
    hide Recordings, Filled, Positions, Watermarks, Balanced, Events, StagedValid;
    assert key !in Pending(t);
  }

  lemma DrainKeepsInv(w: World, s: Settings)
    requires s.Valid() && Inv(w, s) && Take(w, s, Drain).Some?
    ensures Inv(Take(w, s, Drain).value, s)
  {
    hide Sound, H.Latest, H.Climbing, IsRecorded, Pending;
    forall k | k in w.scan.value.report.value ensures IsRecorded(w.db, k) {
      DrainedIsRecorded(w.db, k);
    }
  }

  lemma CommitKeepsInv(w: World, s: Settings, createdAt: int)
    requires s.Valid() && Inv(w, s) && Take(w, s, CommitCheckpoint(createdAt)).Some?
    ensures Inv(Take(w, s, CommitCheckpoint(createdAt)).value, s)
  {
    hide Sound, H.Latest, H.Climbing, IsRecorded, H.Advance, H.Injective;
    H.AdvanceClimbs(w.log, s.digest, w.scan.value.to, createdAt);
  }

  lemma WorldKeepsInv(w: World, s: Settings, step: Move)
    requires s.Valid() && Inv(w, s) && (step.Tick? || step.Trade? || step.BeginScan? || step.Answer? || step.Crash?)
    requires Take(w, s, step).Some?
    ensures Inv(Take(w, s, step).value, s)
  {
    hide Sound, H.Latest, H.Climbing, IsRecorded;
  }

  lemma StepKeepsInv(w: World, s: Settings, step: Move)
    requires s.Valid() && Inv(w, s) && Take(w, s, step).Some?
    ensures Inv(Take(w, s, step).value, s)
  {
    hide Inv, Take;
    match step
    case Transact(op) => TransactKeepsInv(w, s, op);
    case Drain => DrainKeepsInv(w, s);
    case CommitCheckpoint(createdAt) => CommitKeepsInv(w, s, createdAt);
    case Tick(_) => WorldKeepsInv(w, s, step);
    case Trade(_) => WorldKeepsInv(w, s, step);
    case BeginScan => WorldKeepsInv(w, s, step);
    case Answer(_) => WorldKeepsInv(w, s, step);
    case Crash => WorldKeepsInv(w, s, step);
  }

  /** The log is only appended to, and the watermark never falls. */
  lemma WatermarkNeverRegresses(w: World, s: Settings, step: Move)
    requires s.Valid() && Inv(w, s) && Take(w, s, step).Some?
    ensures var w' := Take(w, s, step).value;
            && w.log <= w'.log
            && (w.log != [] ==> w'.log != [])
            && (w.log != [] ==> H.Latest(w.log).value.coveredThrough <= H.Latest(w'.log).value.coveredThrough)
  {
    hide Sound, H.Latest, H.Climbing, IsRecorded, H.Advance, H.Injective, ScanFits, WindowRecorded, Do, Step, Pending;
    if step.CommitCheckpoint? {
      H.AdvanceClimbs(w.log, s.digest, w.scan.value.to, step.createdAt);
    }
  }

  /** The world after a run, absent when some step was not possible. */
  ghost function Play(w: World, s: Settings, moves: seq<Move>): (r: Option<World>)
    requires s.Valid() && Inv(w, s)
    ensures r.Some? ==> Inv(r.value, s)
  {
    hide Inv, Take;
    if moves == [] then Some(w)
    else
      var before := Play(w, s, moves[..|moves| - 1]);
      if before.None? then None
      else
        InvIsSound(before.value, s);
        var next := Take(before.value, s, moves[|moves| - 1]);
        if next.None? then None else StepKeepsInv(before.value, s, moves[|moves| - 1]); next
  }

  lemma InvIsSound(w: World, s: Settings)
    requires s.Valid() && Inv(w, s)
    ensures Sound(w.db)
  {
  }

  /** Before anything was ever recovered. */
  predicate Fresh(w: World) {
    FillsKnown(w) && w.log == [] && w.scan.None? && w.origin.None?
  }

  /** In every run, crashes between staging, draining and the checkpoint included, the newest
      row of the log covers the most, and every fill executed from the start of the first
      committed window through that coverage is recorded in the ledger exactly once. */
  lemma CoverageHasNoGaps(w: World, s: Settings, moves: seq<Move>)
    requires s.Valid() && Sound(w.db) && Fresh(w)
    ensures Inv(w, s)
    ensures Play(w, s, moves).Some? && Play(w, s, moves).value.log != [] ==>
              var t := Play(w, s, moves).value;
              && t.origin.Some?
              && (forall i :: 0 <= i < |t.log| ==> t.log[i].coveredThrough <= H.Latest(t.log).value.coveredThrough)
              && WindowRecorded(t, t.origin.value, H.Latest(t.log).value.coveredThrough)
              && (forall i, j :: 0 <= i < j < |t.db.executions| ==> t.db.executions[i].key != t.db.executions[j].key)
  {
    hide Play, Filled, Positions, Watermarks, Balanced, Events, StagedValid, H.Latest;
    if Play(w, s, moves).Some? && Play(w, s, moves).value.log != [] {
      H.LatestIsLast(Play(w, s, moves).value.log, s.digest);
    }
  }
}
