/** The agent's own methods around order intents, as the code runs them: each changes the
    system only by steps of the transition system, so a crash may cut it short anywhere. */
module OrderAgent {
  import opened Decimals
  import opened OrderIntents

  /** The durable rows of one signal are the same in both systems. */
  predicate SameRows(before: System, after: System, s: Id) {
    && (s in after.signals <==> s in before.signals) && (s in before.signals ==> after.signals[s] == before.signals[s])
    && (s in after.decisions <==> s in before.decisions) && (s in before.decisions ==>
         after.decisions[s] == before.decisions[s])
    && (s in after.intents <==> s in before.intents) && (s in before.intents ==> after.intents[s] == before.intents[s])
    && (s in after.orders <==> s in before.orders) && (s in before.orders ==> after.orders[s] == before.orders[s])
  }

  ghost predicate OnlyRowsOf(before: System, after: System, s: Id) {
    forall other :: other != s ==> SameRows(before, after, other)
  }

  /** Signals without a decision, of one strategy or of all. */
  function Undecided(sys: System, strategy: Option<Name>): set<Id> {
    set s | s in sys.signals && s !in sys.decisions && (strategy.Some? ==> sys.signals[s].strategy == strategy.value)
  }

  function PendingIntents(sys: System, strategy: Option<Name>): set<Id> {
    set s | s in sys.intents && Pending(sys.intents[s].status) && (strategy.Some? ==>
        sys.intents[s].strategy == strategy.value)
  }

  predicate Concerned(strategy: Option<Name>, name: Name) {
    strategy == None || strategy == Some(name)
  }

  /** No signal is undecided exactly when each of the strategy, or of all, has a decision. */
  lemma NothingUndecided(sys: System, strategy: Option<Name>)
    ensures Undecided(sys, strategy) == {} <==>
              forall s :: s in sys.signals && Concerned(strategy, sys.signals[s].strategy) ==> s in sys.decisions
  {
    assert forall s :: s in Undecided(sys, strategy) <==>
        s in sys.signals && s !in sys.decisions && Concerned(strategy, sys.signals[s].strategy);
    if Undecided(sys, strategy) != {} {
      SomeMember(Undecided(sys, strategy));
      var s :| s in Undecided(sys, strategy);
      assert s !in sys.decisions;
    }
  }

  /** No intent is pending exactly when each is submitted, rejected, failed or not submitted. */
  lemma NothingPends(sys: System, strategy: Option<Name>)
    ensures PendingIntents(sys, strategy) == {} <==>
              forall s :: s in sys.intents && Concerned(strategy, sys.intents[s].strategy) ==>
                var status := sys.intents[s].status;
                status == Submitted || status == Rejected || status == Failed || status == NotSubmitted
  {
    assert forall s :: s in PendingIntents(sys, strategy) <==>
        s in sys.intents && Pending(sys.intents[s].status) && Concerned(strategy, sys.intents[s].strategy);
    if PendingIntents(sys, strategy) != {} {
      SomeMember(PendingIntents(sys, strategy));
      var s :| s in PendingIntents(sys, strategy);
      assert Pending(sys.intents[s].status);
    }
  }

  /** Rows of other strategies are the same. */
  ghost predicate OnlyStrategy(before: System, after: System, strategy: Name) {
    && before.signals == after.signals
    && forall s :: !(s in before.signals && before.signals[s].strategy == strategy) ==> SameRows(before, after, s)
  }

  datatype Submission = Settled | NotSettled

  class Agent {
    var sys: System
    ghost const origin: System
    ghost var trace: seq<Step>

    ghost predicate Valid()
      reads this
    {
      Safe(sys) && Run(origin, trace) == Some(sys)
    }

    constructor (sys: System)
      requires Safe(sys)
      ensures Valid() && this.sys == sys && trace == []
    {
      this.sys, origin, trace := sys, sys, [];
    }

    /** One step of the system. */
    method Do(step: Step)
      requires Valid() && Take(sys, step).Some?
      modifies this
      ensures Valid() && sys == Take(old(sys), step).value && trace == old(trace) + [step]
    {
      hide Safe, Take, Run;
      StepKeepsSafe(sys, step);
      RunAppended(origin, trace, step);
      trace := trace + [step];
      sys := Take(sys, step).value;
    }

    /** Requests in flight may be executed or lost at any time. */
    method Network()
      requires Valid()
      modifies this
      ensures Valid() && old(trace) <= trace
      ensures sys == old(sys).(inFlight := sys.inFlight, book := sys.book)
    {
      hide Safe;
      var going: bool := *;
      while going && |sys.inFlight| > 0
        invariant Valid() && old(trace) <= trace
        invariant sys == old(sys).(inFlight := sys.inFlight, book := sys.book)
        decreases |sys.inFlight|
      {
        SomeInFlight(sys.inFlight);
        var s :| s in sys.inFlight;
        var executed: bool := *;
        if executed {
          var order: Order := *;
          Do(Execute(s, order));
        } else {
          Do(Lose(s));
        }
        going := *;
      }
    }

    /** The call to the exchange: the request goes out, and some honest reply comes back. */
    method PlaceOrder(s: Id) returns (reply: Reply)
      requires Valid() && s in sys.memory && sys.memory[s] == Claimed
      modifies this
      ensures Valid() && old(trace) <= trace
      ensures sys == old(sys).(inFlight := sys.inFlight, book := sys.book, memory := old(sys).memory[s := Heard(reply)])
    {
      hide Safe, Take, Honest;
      ghost var before := sys;
      DispatchEffect(sys, s);
      Do(Dispatch(s));
      Network();
      SomeHonestReply(sys, s);
      reply :| Honest(sys, s, reply);
      HearEffect(sys, s, reply);
      Do(Hear(s, reply));
      assert sys.memory == before.memory[s := Heard(reply)];
    }

    /** Asks the exchange for the order of a client identifier; a failed call finds none. */
    method GetOrderByClientID(s: Id) returns (found: Option<Order>)
      requires Valid()
      modifies this
      ensures Valid() && old(trace) <= trace
      ensures sys == old(sys).(inFlight := sys.inFlight, book := sys.book)
      ensures found.Some? ==> found.value in BookOf(sys, s)
    {
      hide Safe;
      Network();
      var answered: bool := *;
      if answered && BookOf(sys, s) != [] {
        return Some(BookOf(sys, s)[0]);
      }
      return None;
    }

    /** Persists one step unless the store fails, which changes nothing. */
    method TryStore(step: Step) returns (ok: bool)
      requires Valid()
      modifies this
      ensures Valid() && old(trace) <= trace
      ensures ok ==> Take(old(sys), step) == Some(sys)
      ensures !ok ==> sys == old(sys)
    {
      hide Safe, Take;
      var available: bool := *;
      ok := available && Take(sys, step).Some?;
      if ok {
        Do(step);
      }
    }

    /** Moves a ready intent to submitting before the call, places the order and stores what
        the reply calls for. */
    method SubmitIntent(s: Id) returns (r: Submission)
      requires Valid() && s in sys.intents
      modifies this
      ensures Valid() && old(trace) <= trace
      ensures OnlyRowsOf(old(sys), sys, s)
      ensures s in sys.intents && sys.signals == old(sys).signals && sys.decisions == old(sys).decisions
      ensures r.Settled? ==> sys.intents[s].status in {Submitted, Rejected}
      ensures r.NotSettled? ==> sys.intents[s].status == old(sys.intents[s].status) || Pending(sys.intents[s].status)
    {
      hide Safe, Resolve, Judge, Take, OnlyRowsOf;
      ghost var before := sys;
      SameRowsOfAll(before, s);
      if sys.intents[s].status != Ready {
        return NotSettled;
      }
      var begun := TryStore(Begin(s));
      if !begun {
        return NotSettled;
      }
      BeginRows(before, s);
      ghost var claimed := sys;
      var reply := PlaceOrder(s);
      ghost var heard := sys;
      UnstoredRows(claimed, heard, s);
      OnlyRowsTransitive(before, claimed, heard, s);
      var verdict := Judge(sys.intents[s], reply);
      JudgeNeverFails(sys.intents[s], reply);
      var stored := TryStore(Persist(s));
      if stored {
        PersistRows(heard, s);
        OnlyRowsTransitive(before, heard, sys, s);
      }
      r := if stored && (verdict.RecordOrder? || verdict == ResolveAs(Rejected)) then Settled else NotSettled;
    }

    /** Looks an intent up on the exchange and stores the order found there, if it is the
        one the intent asked for. */
    method LookUp(s: Id) returns (ok: bool)
      requires Valid() && s in sys.intents && sys.intents[s].status in {Submitting, Unknown}
      modifies this
      ensures Valid() && old(trace) <= trace
      ensures OnlyRowsOf(old(sys), sys, s) && sys.signals == old(sys).signals && sys.decisions == old(sys).decisions
      ensures ok ==> s in sys.intents && sys.intents[s] == old(sys).intents[s].(status := Submitted)
    {
      hide Safe, Take, OnlyRowsOf, Resolve;
      ghost var before := sys;
      var found := GetOrderByClientID(s);
      ghost var asked := sys;
      UnstoredRows(before, asked, s);
      if found.None? || found.value.terms != sys.intents[s].terms {
        return false;
      }
      ok := TryStore(Recover(s, found.value));
      if ok {
        RecoverRows(asked, s, found.value);
        OnlyRowsTransitive(before, asked, sys, s);
      }
    }

    /** Some of the pending intents, all of them when fewer than the limit. */
    method ListPendingIntents(strategy: Option<Name>, limit: nat) returns (ids: seq<Id>)
      ensures IsPage(ids, PendingIntents(sys, strategy), limit)
    {
      ids := Page(PendingIntents(sys, strategy), limit);
    }

    method ListUndecided(strategy: Option<Name>, limit: nat) returns (ids: seq<Id>)
      ensures IsPage(ids, Undecided(sys, strategy), limit)
    {
      ids := Page(Undecided(sys, strategy), limit);
    }

    /** Restart: every pending intent that may have crossed the boundary is looked up and
        recorded, or startup stops; only ready intents remain to be submitted. */
    method ResolvePendingIntents() returns (r: Option<seq<Id>>)
      requires Valid()
      modifies this
      ensures Valid() && old(trace) <= trace
      ensures sys.signals == old(sys).signals && sys.decisions == old(sys).decisions
      ensures r.Some? ==>
                && (forall s :: s in PendingIntents(sys, None) <==> s in r.value)
                && (forall s :: s in r.value ==>
                     sys.intents[s].status == Ready && s in old(sys).intents && sys.intents[s] == old(sys).intents[s])
                && (forall s :: s in old(sys).intents && old(sys).intents[s].status in {Submitting, Unknown} ==>
                      s in sys.intents && sys.intents[s].status == Submitted)
    {
      hide Safe;
      ghost var before := sys;
      var ids := ListPendingIntents(None, INTENT_LIMIT);
      if |ids| == INTENT_LIMIT {
        return None;
      }
      var ready: seq<Id> := [];
      for i := 0 to |ids|
        invariant Valid() && old(trace) <= trace
        invariant sys.signals == before.signals && sys.decisions == before.decisions
        invariant forall s :: s !in ids[..i] ==> SameRows(before, sys, s)
        invariant forall s :: s in ids[..i] ==> s in sys.intents && s in before.intents
        invariant forall s :: s in ids[..i] ==>
                    if before.intents[s].status == Ready then s in ready && sys.intents[s] == before.intents[s]
                    else sys.intents[s].status == Submitted
        invariant forall s :: s in ready ==> s in ids[..i] && before.intents[s].status == Ready
      {
        var s := ids[i];
        assert ids[..i + 1] == ids[..i] + [s] && s !in ids[..i];
        assert SameRows(before, sys, s);
        if sys.intents[s].status == Ready {
          ready := ready + [s];
        } else {
          ghost var prior := sys;
          var ok := LookUp(s);
          if !ok {
            return None;
          }
          RowsChain(before, prior, sys, ids[..i], s);
        }
      }
      assert ids[..|ids|] == ids;
      assert forall s :: s in sys.intents && s !in ids ==> SameRows(before, sys, s);
      r := Some(ready);
    }

    /** Evaluates one undecided signal, records the decision and submits what is allowed. */
    method ProcessSignal(s: Id, verdict: Option<bool>) returns (ok: bool)
      requires Valid() && s in sys.signals
      modifies this
      ensures Valid() && old(trace) <= trace && OnlyRowsOf(old(sys), sys, s) && sys.signals == old(sys).signals
      ensures ok ==> s !in old(sys).decisions && verdict.Some?
      ensures ok ==> sys.decisions == old(sys).decisions[s := verdict.value]
      ensures ok && verdict.value ==> s in sys.intents && sys.intents[s].status in {Submitted, Rejected}
      ensures ok ==> PendingIntents(sys, None) <= PendingIntents(old(sys), None)
    {
      hide Safe, Take;
      ghost var before := sys;
      SameRowsOfAll(before, s);
      if verdict.None? {
        return false;
      }
      var recorded := TryStore(DecideOn(s, verdict.value));
      if !recorded {
        return false;
      }
      DecideRows(before, s, verdict.value);
      if !verdict.value {
        SamePending(before, sys);
        return true;
      }
      ghost var decided := sys;
      var submission := SubmitIntent(s);
      OnlyRowsTransitive(before, decided, sys, s);
      ok := submission.Settled?;
      if ok {
        NoMorePending(before, sys, s);
      }
    }

    method ProcessPage(ids: seq<Id>, risk: Id -> Option<bool>) returns (ok: bool)
      requires Valid() && forall i :: 0 <= i < |ids| ==> ids[i] in sys.signals
      modifies this
      ensures Valid() && old(trace) <= trace && sys.signals == old(sys).signals
      ensures ok ==> DecidedAlso(old(sys), sys, ids) && PendingIntents(sys, None) <= PendingIntents(old(sys), None)
    {
      hide Safe;
      ghost var start := sys;
      for i := 0 to |ids|
        invariant Valid() && old(trace) <= trace && sys.signals == start.signals
        invariant DecidedAlso(start, sys, ids[..i]) && PendingIntents(sys, None) <= PendingIntents(start, None)
      {
        assert ids[..i + 1] == ids[..i] + [ids[i]];
        var done := ProcessSignal(ids[i], risk(ids[i]));
        if !done {
          return false;
        }
      }
      assert ids[..|ids|] == ids;
      ok := true;
    }

    /** Pages through the undecided signals until a short page shows there are none left. */
    method RecoverSignals(risk: Id -> Option<bool>) returns (ok: bool)
      requires Valid()
      modifies this
      ensures Valid() && old(trace) <= trace && sys.signals == old(sys).signals
      ensures ok ==> Undecided(sys, None) == {} && PendingIntents(sys, None) <= PendingIntents(old(sys), None)
    {
      hide Safe, DecidedAlso;
      while true
        invariant Valid() && old(trace) <= trace && sys.signals == old(sys).signals
        invariant PendingIntents(sys, None) <= PendingIntents(old(sys), None)
        decreases |Undecided(sys, None)|
      {
        var ids := ListUndecided(None, SIGNAL_BATCH);
        ghost var start := sys;
        var done := ProcessPage(ids, risk);
        if !done {
          return false;
        }
        PageDecided(start, sys, None, ids);
        if |ids| < SIGNAL_BATCH {
          return true;
        }
      }
    }

    /** Submits the intents that restart found ready, stopping at the first failure. */
    method SubmitReady(ids: seq<Id>) returns (ok: bool)
      requires Valid() && forall i :: 0 <= i < |ids| ==> ids[i] in sys.intents
      modifies this
      ensures Valid() && old(trace) <= trace
      ensures sys.signals == old(sys).signals && sys.decisions == old(sys).decisions
      ensures ok ==> forall s :: s in PendingIntents(sys, None) ==> s in PendingIntents(old(sys), None) && s !in ids
    {
      hide Safe;
      ghost var start := sys;
      for i := 0 to |ids|
        invariant Valid() && old(trace) <= trace
        invariant sys.signals == start.signals && sys.decisions == start.decisions
        invariant forall j :: 0 <= j < |ids| ==> ids[j] in sys.intents
        invariant forall s :: s in PendingIntents(sys, None) ==> s in PendingIntents(start, None) && s !in ids[..i]
      {
        assert ids[..i + 1] == ids[..i] + [ids[i]];
        ghost var prior := sys;
        var submission := SubmitIntent(ids[i]);
        if submission.NotSettled? {
          return false;
        }
        NoMorePending(prior, sys, ids[i]);
        StillThere(prior, sys, ids[i], ids);
      }
      assert ids[..|ids|] == ids;
      ok := true;
    }

    /** Startup's part in the protocol: settle what may have been sent, submit what was not,
        then decide what is undecided, unless some strategy's risk check has yet to observe
        the market: then no decision is taken before it has. */
    method Startup(risk: Id -> Option<bool>, observers: set<Name>) returns (ok: bool)
      requires Valid()
      modifies this
      ensures Valid() && old(trace) <= trace && sys.signals == old(sys).signals
      ensures ok ==> PendingIntents(sys, None) == {}
      ensures ok && observers == {} ==> Undecided(sys, None) == {}
      ensures observers != {} ==> sys.decisions == old(sys).decisions
    {
      hide Safe, SameRows;
      var ready := ResolvePendingIntents();
      if ready.None? {
        return false;
      }
      ghost var resolved := PendingIntents(sys, None);
      assert forall s :: s in resolved <==> s in ready.value;
      assert forall i :: 0 <= i < |ready.value| ==> ready.value[i] in resolved;
      var submitted := SubmitReady(ready.value);
      if !submitted {
        return false;
      }
      assert forall s :: s !in PendingIntents(sys, None);
      if observers != {} {
        return true;
      }
      ok := RecoverSignals(risk);
    }

    method RejectPage(ids: seq<Id>, strategy: Name) returns (ok: bool)
      requires Valid() && forall i :: 0 <= i < |ids| ==> ids[i] in Undecided(sys, Some(strategy))
      modifies this
      ensures Valid() && old(trace) <= trace && OnlyStrategy(old(sys), sys, strategy) && sys.intents == old(sys).intents
      ensures ok ==> DecidedAlso(old(sys), sys, ids)
    {
      hide Safe, Take;
      ghost var start := sys;
      for i := 0 to |ids|
        invariant Valid() && old(trace) <= trace && OnlyStrategy(start, sys, strategy) && sys.intents == start.intents
        invariant DecidedAlso(start, sys, ids[..i])
      {
        assert ids[..i + 1] == ids[..i] + [ids[i]];
        ghost var prior := sys;
        var recorded := TryStore(DecideOn(ids[i], false));
        if !recorded {
          return false;
        }
        DecideRows(prior, ids[i], false);
        StrategyRows(start, prior, sys, strategy, ids[i]);
      }
      assert ids[..|ids|] == ids;
      ok := true;
    }

    /** Rejects every undecided signal of a failed strategy. */
    method TerminalizeFailedStrategySignals(strategy: Name) returns (ok: bool)
      requires Valid()
      modifies this
      ensures Valid() && old(trace) <= trace && OnlyStrategy(old(sys), sys, strategy) && sys.intents == old(sys).intents
      ensures ok ==> Undecided(sys, Some(strategy)) == {}
    {
      hide Safe, DecidedAlso, OnlyStrategy;
      ghost var before := sys;
      OnlyStrategyItself(before, strategy);
      while true
        invariant Valid() && old(trace) <= trace && OnlyStrategy(before, sys, strategy) && sys.intents == before.intents
        decreases |Undecided(sys, Some(strategy))|
      {
        var ids := ListUndecided(Some(strategy), SIGNAL_BATCH);
        ghost var start := sys;
        var done := RejectPage(ids, strategy);
        OnlyStrategyTransitive(before, start, sys, strategy);
        if !done {
          return false;
        }
        PageDecided(start, sys, Some(strategy), ids);
        if |ids| < SIGNAL_BATCH {
          return true;
        }
      }
    }

    /** Settles the pending intents of a failed strategy: the ready ones are abandoned, the
        others are looked up, and one that is not found stops the runtime. */
    method ResolveFailedStrategyIntents(strategy: Name) returns (ok: bool)
      requires Valid()
      modifies this
      ensures Valid() && old(trace) <= trace && OnlyStrategy(old(sys), sys, strategy) &&
          sys.decisions == old(sys).decisions
      ensures ok ==> PendingIntents(sys, Some(strategy)) == {}
    {
      hide Safe, Take;
      ghost var before := sys;
      var ids := ListPendingIntents(Some(strategy), INTENT_LIMIT);
      if |ids| == INTENT_LIMIT {
        return false;
      }
      for i := 0 to |ids|
        invariant Valid() && old(trace) <= trace && OnlyStrategy(before, sys, strategy) &&
            sys.decisions == before.decisions
        invariant forall s :: s !in ids[..i] ==> SameRows(before, sys, s)
        invariant forall s :: s in ids[..i] ==> s in sys.intents && !Pending(sys.intents[s].status)
      {
        var s := ids[i];
        assert ids[..i + 1] == ids[..i] + [s] && s !in ids[..i];
        assert SameRows(before, sys, s);
        IntentOfStrategy(sys, s);
        ghost var prior := sys;
        if sys.intents[s].status == Ready {
          var abandoned := TryStore(Abandon(s));
          if !abandoned {
            return false;
          }
          AbandonRows(prior, s);
        } else {
          var recorded := LookUp(s);
          StrategyRows(before, prior, sys, strategy, s);
          if !recorded {
            return false;
          }
        }
        RowsChain(before, prior, sys, ids[..i], s);
        StrategyRows(before, prior, sys, strategy, s);
      }
      assert ids[..|ids|] == ids;
      NothingPending(before, sys, strategy, ids);
      ok := true;
    }
  }

  datatype Isolation = Isolated | AlreadyIsolated | IsolationFailed

  /** The account runtime: which strategies still run, and which were isolated. */
  class Runtime {
    const agent: Agent
    const bindings: seq<(Name, Name)>
    var activeWorkers: map<Name, Name>
    var failed: set<Name>

    constructor (agent: Agent, bindings: seq<(Name, Name)>, workers: map<Name, Name>)
      ensures this.agent == agent && this.bindings == bindings && activeWorkers == workers && failed == {}
    {
      this.agent, this.bindings := agent, bindings;
      activeWorkers, failed := workers, {};
    }

    /** Isolates a failed strategy: its worker stops, its undecided signals are rejected and
        its pending intents settled; nothing of any other strategy changes. */
    method IsolateStrategyFailure(strategy: Name, lifecycleStored: bool) returns (r: Isolation)
      requires agent.Valid()
      modifies this, agent
      ensures agent.Valid() && old(agent.trace) <= agent.trace && OnlyStrategy(old(agent.sys), agent.sys, strategy)
      ensures r == AlreadyIsolated <==> strategy in old(failed)
      ensures r.Isolated? ==>
                && Undecided(agent.sys, Some(strategy)) == {} && PendingIntents(agent.sys, Some(strategy)) == {}
                && failed == old(failed) + {strategy}
                && forall b :: b in bindings && b.0 == strategy ==> b.1 !in activeWorkers
      ensures !r.Isolated? ==> failed == old(failed)
    {
      hide OnlyStrategy;
      ghost var before := agent.sys;
      OnlyStrategyItself(before, strategy);
      if strategy in failed {
        return AlreadyIsolated;
      }
      for i := 0 to |bindings|
        invariant forall j :: 0 <= j < i && bindings[j].0 == strategy ==> bindings[j].1 !in activeWorkers
        invariant failed == old(failed)
        invariant agent.Valid() && agent.sys == before && agent.trace == old(agent.trace)
      {
        if bindings[i].0 == strategy {
          activeWorkers := activeWorkers - {bindings[i].1};
        }
      }
      var rejected := agent.TerminalizeFailedStrategySignals(strategy);
      if !rejected {
        return IsolationFailed;
      }
      ghost var decided := agent.sys;
      var settled := agent.ResolveFailedStrategyIntents(strategy);
      OnlyStrategyTransitive(before, decided, agent.sys, strategy);
      if !settled || !lifecycleStored {
        return IsolationFailed;
      }
      StillDecided(decided, agent.sys, strategy);
      failed := failed + {strategy};
      r := Isolated;
    }
  }

  lemma StillDecided(before: System, after: System, strategy: Name)
    requires OnlyStrategy(before, after, strategy) && after.decisions == before.decisions
    ensures Undecided(after, Some(strategy)) == Undecided(before, Some(strategy))
  {
  }

  const INTENT_LIMIT: nat := 1000

  const SIGNAL_BATCH: nat := 100

  /** A page of a set: distinct members, all of them unless the page is full. */
  ghost predicate IsPage(ids: seq<Id>, all: set<Id>, limit: nat) {
    && (forall i :: 0 <= i < |ids| ==> ids[i] in all)
    && (forall i, j :: 0 <= i < j < |ids| ==> ids[i] != ids[j])
    && |ids| <= limit && (|ids| < limit ==> forall s :: s in all ==> s in ids)
  }

  method Page(all: set<Id>, limit: nat) returns (ids: seq<Id>)
    ensures IsPage(ids, all, limit)
  {
    ids := [];
    var remaining := all;
    while |ids| < limit && remaining != {}
      invariant |ids| <= limit && remaining <= all
      invariant forall i :: 0 <= i < |ids| ==> ids[i] in all && ids[i] !in remaining
      invariant forall i, j :: 0 <= i < j < |ids| ==> ids[i] != ids[j]
      invariant forall s :: s in all ==> s in remaining || s in ids
      decreases |remaining|
    {
      SomeMember(remaining);
      var s :| s in remaining;
      remaining := remaining - {s};
      ids := ids + [s];
    }
  }

  lemma SomeMember(all: set<Id>)
    requires all != {}
    ensures exists s :: s in all
  {
    if forall s :: s !in all {
      assert false;
    }
  }

  lemma RecoverRows(sys: System, s: Id, order: Order)
    requires Take(sys, Recover(s, order)).Some?
    ensures var t := Take(sys, Recover(s, order)).value;
            && OnlyRowsOf(sys, t, s) && t.signals == sys.signals && t.decisions == sys.decisions
            && s in sys.intents && s in t.intents && t.intents[s] == sys.intents[s].(status := Submitted)
  {
  }

  /** Rows untouched so far and not touched by one more change are still untouched. */
  lemma RowsChain(before: System, prior: System, after: System, done: seq<Id>, s: Id)
    requires (forall o :: o !in done ==> SameRows(before, prior, o)) && OnlyRowsOf(prior, after, s)
    ensures forall o :: o !in done + [s] ==> SameRows(before, after, o)
    ensures forall o :: o in done && o != s ==> SameRows(prior, after, o)
  {
    hide SameRows;
    forall o | o !in done + [s] ensures SameRows(before, after, o) {
      SameRowsTransitive(before, prior, after, o);
    }
  }

  lemma DecideRows(sys: System, s: Id, allow: bool)
    requires Take(sys, DecideOn(s, allow)).Some?
    ensures var t := Take(sys, DecideOn(s, allow)).value;
            && OnlyRowsOf(sys, t, s) && t.signals == sys.signals && s !in sys.decisions && s in sys.signals
            && t.decisions == sys.decisions[s := allow]
            && (allow ==> s in t.intents) && (!allow ==> t.intents == sys.intents)
  {
  }

  lemma AbandonRows(sys: System, s: Id)
    requires Take(sys, Abandon(s)).Some?
    ensures var t := Take(sys, Abandon(s)).value;
            && OnlyRowsOf(sys, t, s) && t.signals == sys.signals && t.decisions == sys.decisions
            && s in t.intents && t.intents[s].status == NotSubmitted
  {
  }

  lemma IntentOfStrategy(sys: System, s: Id)
    requires Safe(sys) && s in sys.intents
    ensures s in sys.signals && sys.signals[s].strategy == sys.intents[s].strategy
  {
    assert SafeFor(sys, s);
  }

  lemma StrategyRows(before: System, prior: System, after: System, strategy: Name, s: Id)
    requires OnlyStrategy(before, prior, strategy) && OnlyRowsOf(prior, after, s) && after.signals == prior.signals
    requires s in before.signals && before.signals[s].strategy == strategy
    ensures OnlyStrategy(before, after, strategy)
  {
    hide SameRows;
    forall o | !(o in before.signals && before.signals[o].strategy == strategy) ensures SameRows(before, after, o) {
      SameRowsTransitive(before, prior, after, o);
    }
  }

  /** The signals of the list, and no others, have been decided since. */
  ghost predicate DecidedAlso(before: System, after: System, ids: seq<Id>) {
    after.signals == before.signals && forall s :: s in after.decisions <==> s in before.decisions || s in ids
  }

  lemma PageDecided(before: System, after: System, strategy: Option<Name>, ids: seq<Id>)
    requires DecidedAlso(before, after, ids) && IsPage(ids, Undecided(before, strategy), SIGNAL_BATCH)
    ensures |ids| < SIGNAL_BATCH ==> Undecided(after, strategy) == {}
    ensures ids != [] ==> |Undecided(after, strategy)| < |Undecided(before, strategy)|
  {
    var fewer, all := Undecided(after, strategy), Undecided(before, strategy);
    assert forall s :: s in fewer <==> s in all && s !in ids;
    if |ids| < SIGNAL_BATCH {
      assert forall s :: s !in fewer;
    }
    if ids != [] {
      assert ids[0] in all && fewer <= all - {ids[0]};
      SubsetIsSmaller(fewer, all - {ids[0]});
    }
  }

  lemma NothingPending(before: System, after: System, strategy: Name, ids: seq<Id>)
    requires forall s :: s in PendingIntents(before, Some(strategy)) ==> s in ids
    requires forall s :: s !in ids ==> SameRows(before, after, s)
    requires forall s :: s in ids ==> s in after.intents && !Pending(after.intents[s].status)
    ensures PendingIntents(after, Some(strategy)) == {}
  {
    forall s ensures s !in PendingIntents(after, Some(strategy)) {
      if s !in ids {
        assert SameRows(before, after, s);
        assert s in PendingIntents(before, Some(strategy)) <==> s in PendingIntents(after, Some(strategy));
      }
    }
  }

  /** A signal whose intent was settled adds nothing to the pending intents. */
  lemma NoMorePending(before: System, after: System, s: Id)
    requires OnlyRowsOf(before, after, s) && s in after.intents && after.intents[s].status in {Submitted, Rejected}
    ensures PendingIntents(after, None) <= PendingIntents(before, None) && s !in PendingIntents(after, None)
  {
    forall o | o in PendingIntents(after, None) ensures o in PendingIntents(before, None) && o != s {
      assert o != s ==> SameRows(before, after, o);
    }
  }

  lemma SamePending(before: System, after: System)
    requires after.intents == before.intents
    ensures PendingIntents(after, None) == PendingIntents(before, None)
  {
  }

  lemma StillThere(before: System, after: System, s: Id, ids: seq<Id>)
    requires OnlyRowsOf(before, after, s) && s in after.intents
    requires forall j :: 0 <= j < |ids| ==> ids[j] in before.intents
    ensures forall j :: 0 <= j < |ids| ==> ids[j] in after.intents
  {
    forall j | 0 <= j < |ids| ensures ids[j] in after.intents {
      assert ids[j] != s ==> SameRows(before, after, ids[j]);
    }
  }

  lemma OnlyStrategyItself(sys: System, strategy: Name)
    ensures OnlyStrategy(sys, sys, strategy)
  {
  }

  lemma OnlyStrategyTransitive(a: System, b: System, c: System, strategy: Name)
    requires OnlyStrategy(a, b, strategy) && OnlyStrategy(b, c, strategy)
    ensures OnlyStrategy(a, c, strategy)
  {
    hide SameRows;
    forall o | !(o in a.signals && a.signals[o].strategy == strategy) ensures SameRows(a, c, o) {
      SameRowsTransitive(a, b, c, o);
    }
  }

  lemma SubsetIsSmaller(a: set<Id>, b: set<Id>)
    requires a <= b
    ensures |a| <= |b|
  {
    assert b == a + (b - a);
  }

  lemma SomeInFlight(m: multiset<Id>)
    requires |m| > 0
    ensures exists s :: s in m
  {
    if forall s :: s !in m {
      assert false;
    }
  }

  lemma SomeHonestReply(sys: System, s: Id)
    ensures exists reply :: Honest(sys, s, reply)
  {
    assert Honest(sys, s, OtherError);
  }

  lemma DispatchEffect(sys: System, s: Id)
    requires s in sys.memory && sys.memory[s] == Claimed
    ensures Take(sys, Dispatch(s)) == Some(sys.(inFlight := sys.inFlight + multiset{s},
        memory := sys.memory[s := Awaiting]))
  {
  }

  lemma HearEffect(sys: System, s: Id, reply: Reply)
    requires s in sys.memory && sys.memory[s] == Awaiting && Honest(sys, s, reply)
    ensures Take(sys, Hear(s, reply)).Some?
    ensures var t := Take(sys, Hear(s, reply)).value;
            t == sys.(inFlight := t.inFlight, memory := sys.memory[s := Heard(reply)])
  {
    hide Honest;
  }

  lemma SameRowsOfAll(sys: System, s: Id)
    ensures OnlyRowsOf(sys, sys, s)
  {
  }

  lemma SameRowsTransitive(a: System, b: System, c: System, s: Id)
    requires SameRows(a, b, s) && SameRows(b, c, s)
    ensures SameRows(a, c, s)
  {
  }

  lemma OnlyRowsTransitive(a: System, b: System, c: System, s: Id)
    requires OnlyRowsOf(a, b, s) && OnlyRowsOf(b, c, s)
    ensures OnlyRowsOf(a, c, s)
  {
    hide SameRows;
    forall other | other != s ensures SameRows(a, c, other) {
      SameRowsTransitive(a, b, c, other);
    }
  }

  lemma UnstoredRows(a: System, b: System, s: Id)
    requires b == a.(inFlight := b.inFlight, book := b.book, memory := b.memory)
    ensures OnlyRowsOf(a, b, s)
  {
  }

  lemma BeginRows(sys: System, s: Id)
    requires Take(sys, Begin(s)).Some?
    ensures var t := Take(sys, Begin(s)).value;
            && OnlyRowsOf(sys, t, s) && t.signals == sys.signals && t.decisions == sys.decisions
            && s in sys.intents && t.intents == sys.intents[s := sys.intents[s].(status := Submitting)]
            && s in t.memory && t.memory[s] == Claimed
  {
  }

  lemma JudgeNeverFails(intent: Intent, reply: Reply)
    ensures var verdict := Judge(intent, reply);
            verdict.ResolveAs? ==> verdict.status in {Unknown, Rejected}
  {
  }

  /** What storing a reply can do to the rows of its signal. */
  lemma PersistRows(sys: System, s: Id)
    requires s in sys.intents && s in sys.memory && sys.memory[s].Heard? && Take(sys, Persist(s)).Some?
    ensures var t, verdict := Take(sys, Persist(s)).value, Judge(sys.intents[s], sys.memory[s].reply);
            && OnlyRowsOf(sys, t, s) && s in t.intents && t.signals == sys.signals && t.decisions == sys.decisions
            && t.intents[s] == sys.intents[s].(status := match verdict
                                                         case RecordOrder(_) => Submitted
                                                         case ResolveAs(status) => status
                                                         case ReturnToReady => Ready
                                                         case LeaveSubmitting => sys.intents[s].status)
  {
    hide Honest;
  }
}
