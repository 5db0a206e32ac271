/** What the safety of order intents rests on beyond the steps themselves: exchange errors
    that say whether the request was applied, and status changes the store does not forbid. */
module OrderRules {
  import opened Decimals
  import opened Accounting
  import opened OrderIntents

  // ---------------------------------------------------------------------------
  // A rejected intent has no order
  // ---------------------------------------------------------------------------

  /** Replies that give no intent up without saying what became of the request. */
  predicate Clear(reply: Reply) {
    reply.ExchangeError? && reply.category in REJECTIONS ==> reply.outcome != OutcomeUnset
  }

  predicate ClearStep(step: Step) {
    step.Hear? ==> Clear(step.reply)
  }

  /** A rejected intent has no order and will get none; no unclear reply is held in memory. */
  predicate RejectedUnsent(sys: System, s: Id) {
    && (s in sys.intents && sys.intents[s].status == Rejected ==> Made(sys, s) == 0)
    && (s in sys.memory && sys.memory[s].Heard? ==> Clear(sys.memory[s].reply))
  }

  lemma PersistKeepsRejected(sys: System, s: Id)
    requires SafeFor(sys, s) && RejectedUnsent(sys, s) && Take(sys, Persist(s)).Some?
    ensures RejectedUnsent(Take(sys, Persist(s)).value, s)
  {
    hide Honest;
  }

  lemma NetworkKeepsRejected(sys: System, step: Step, s: Id)
    requires SafeFor(sys, s) && RejectedUnsent(sys, s) && Take(sys, step).Some?
    requires (step.Execute? || step.Lose? || step.Hear?) && ClearStep(step) && step.s == s
    ensures RejectedUnsent(Take(sys, step).value, s)
  {
    hide Honest;
  }

  lemma StoreKeepsRejected(sys: System, step: Step, s: Id)
    requires SafeFor(sys, s) && RejectedUnsent(sys, s) && Take(sys, step).Some? && Concerns(step, s)
    requires !step.Execute? && !step.Lose? && !step.Hear? && !step.Persist?
    ensures RejectedUnsent(Take(sys, step).value, s)
  {
    hide Judge, Honest;
  }

  lemma StepKeepsRejected(sys: System, step: Step, s: Id)
    requires SafeFor(sys, s) && RejectedUnsent(sys, s) && Take(sys, step).Some? && ClearStep(step)
    ensures RejectedUnsent(Take(sys, step).value, s)
  {
    hide Take, SafeFor, ClearStep;
    if !Concerns(step, s) {
      OthersUntouched(sys, step, s);
    } else if step.Persist? {
      hide RejectedUnsent;
      PersistKeepsRejected(sys, s);
    } else if step.Execute? || step.Lose? || step.Hear? {
      hide RejectedUnsent;
      NetworkKeepsRejected(sys, step, s);
    } else {
      hide RejectedUnsent;
      StoreKeepsRejected(sys, step, s);
    }
  }

  predicate AllClear(steps: seq<Step>) {
    forall i :: 0 <= i < |steps| ==> ClearStep(steps[i])
  }

  /** When every error says what became of its request, a rejected intent has no order. */
  lemma {:induction false} RejectedHaveNoOrder(steps: seq<Step>, s: Id)
    requires Run(EMPTY, steps).Some? && AllClear(steps)
    ensures RejectedUnsent(Run(EMPTY, steps).value, s)
  {
    hide Take, SafeFor, RejectedUnsent, ClearStep;
    if steps == [] {
      NothingRejected(s);
    } else {
      var init := steps[..|steps| - 1];
      RejectedHaveNoOrder(init, s);
      EmptyIsSafe();
      RunKeepsSafe(EMPTY, init);
      StepKeepsRejected(Run(EMPTY, init).value, steps[|steps| - 1], s);
    }
  }

  lemma NothingRejected(s: Id)
    ensures RejectedUnsent(EMPTY, s)
  {
  }

  /** A request on its way: the steps that take a signal there, and the system then. */
  function RequestSteps(s: Id, signal: Signal): seq<Step> {
    [Emit(s, signal), DecideOn(s, true), Begin(s), Dispatch(s)]
  }

  function Requested(s: Id, signal: Signal, status: Status): System {
    System(map[s := signal], map[s := true], map[s := Intent(signal.strategy, signal.terms, status)], map[], map[],
           multiset{s}, map[s := Awaiting])
  }

  lemma RequestIsReached(s: Id, signal: Signal)
    ensures Run(EMPTY, RequestSteps(s, signal)) == Some(Requested(s, signal, Submitting))
  {
    var steps := RequestSteps(s, signal);
    var emitted := EMPTY.(signals := map[s := signal]);
    var ready := emitted.(decisions := map[s := true],
                          intents := map[s := Intent(signal.strategy, signal.terms, Ready)]);
    var begun := ready.(intents := ready.intents[s := Intent(signal.strategy, signal.terms, Submitting)],
                        memory := EMPTY.memory[s := Claimed]);
    assert Take(EMPTY, steps[0]) == Some(emitted);
    assert Take(emitted, steps[1]) == Some(ready);
    assert Take(ready, steps[2]) == Some(begun);
    var sent := begun.(inFlight := multiset{} + multiset{s}, memory := begun.memory[s := Awaiting]);
    assert Take(begun, steps[3]) == Some(sent);
    assert sent == Requested(s, signal, Submitting) by {
      assert sent.intents == map[s := Intent(signal.strategy, signal.terms, Submitting)];
      assert sent.memory == map[s := Awaiting];
    }
    hide Take, Requested;
    assert [] + [steps[0]] == steps[..1] && steps[..1] + [steps[1]] == steps[..2];
    assert steps[..2] + [steps[2]] == steps[..3] && steps[..3] + [steps[3]] == steps;
    RunAppended(EMPTY, [], steps[0]);
    RunAppended(EMPTY, steps[..1], steps[1]);
    RunAppended(EMPTY, steps[..2], steps[2]);
    RunAppended(EMPTY, steps[..3], steps[3]);
  }

  lemma RunThree(sys: System, steps: seq<Step>, x: Step, y: Step, z: Step)
    requires Run(sys, steps).Some?
    requires Take(Run(sys, steps).value, x).Some?
    requires Take(Take(Run(sys, steps).value, x).value, y).Some?
    ensures Run(sys, steps + [x, y, z]) == Take(Take(Take(Run(sys, steps).value, x).value, y).value, z)
  {
    hide Take;
    assert steps + [x, y, z] == steps + [x] + [y] + [z];
    RunAppended(sys, steps, x);
    RunAppended(sys, steps + [x], y);
    RunAppended(sys, steps + [x] + [y], z);
  }

  /** An unclear rejection can be wrong: the request is executed after the agent gave it up. */
  lemma UnclearRejection(s: Id, signal: Signal, reply: Reply, order: Order) returns (steps: seq<Step>)
    requires !Clear(reply)
    ensures HearsOnly(steps, reply) && Run(EMPTY, steps).Some?
    ensures var t := Run(EMPTY, steps).value;
            s in t.intents && t.intents[s].status == Rejected && BookOf(t, s) == [order]
  {
    RequestIsReached(s, signal);
    var sent := Requested(s, signal, Submitting);
    var heard := sent.(memory := sent.memory[s := Heard(reply)]);
    var rejected := heard.(memory := heard.memory - {s},
                           intents := sent.intents[s := sent.intents[s].(status := Rejected)]);
    assert Take(sent, Hear(s, reply)) == Some(heard);
    assert Take(heard, Persist(s)) == Some(rejected);
    assert Take(rejected, Execute(s, order)) ==
           Some(rejected.(inFlight := rejected.inFlight - multiset{s}, book := rejected.book[s := [] + [order]]));
    assert [] + [order] == [order];
    hide Take, Run;
    steps := RequestSteps(s, signal) + [Hear(s, reply), Persist(s), Execute(s, order)];
    RunThree(EMPTY, RequestSteps(s, signal), Hear(s, reply), Persist(s), Execute(s, order));
  }

  predicate HearsOnly(steps: seq<Step>, reply: Reply) {
    forall i :: 0 <= i < |steps| && steps[i].Hear? ==> steps[i].reply == reply
  }

  /** Rejected intents never have an order, in any run in which this is the only reply heard. */
  ghost predicate RejectsSafely(reply: Reply) {
    forall steps: seq<Step>, s: Id ::
      Run(EMPTY, steps).Some? && HearsOnly(steps, reply) && s in Run(EMPTY, steps).value.intents &&
      Run(EMPTY, steps).value.intents[s].status == Rejected ==>
        BookOf(Run(EMPTY, steps).value, s) == []
  }

  /** The agent may trust a rejection exactly when it is clear, as the adapter's errors are. */
  lemma ClearRejectionsAreSafe(reply: Reply, code: Code)
    ensures RejectsSafely(reply) <==> Clear(reply)
    ensures Clear(MutationError(code))
  {
    hide Run, BookOf, MutationError;
    AdapterIsClear(code);
    if Clear(reply) {
      forall steps: seq<Step>, s: Id | Run(EMPTY, steps).Some? && HearsOnly(steps, reply) &&
          s in Run(EMPTY, steps).value.intents && Run(EMPTY, steps).value.intents[s].status == Rejected
        ensures BookOf(Run(EMPTY, steps).value, s) == []
      {
        RejectedHaveNoOrder(steps, s);
        NothingMade(Run(EMPTY, steps).value, s);
      }
    } else {
      var terms := Terms("", "", Buy, 1.0, None);
      var steps := UnclearRejection(0, Signal("", terms), reply, Order("", terms));
      assert !RejectsSafely(reply);
    }
  }

  lemma AdapterIsClear(code: Code)
    ensures Clear(MutationError(code))
  {
  }

  lemma NothingMade(sys: System, s: Id)
    requires Made(sys, s) == 0
    ensures BookOf(sys, s) == []
  {
  }

  // ---------------------------------------------------------------------------
  // Status changes the store does not forbid
  // ---------------------------------------------------------------------------

  /** The system stays safe and a resolved intent stays as it is. */
  ghost predicate Harmless(sys: System, next: System, s: Id)
    requires s in sys.intents
  {
    && Safe(next) && RejectedUnsent(next, s)
    && (!Pending(sys.intents[s].status) ==> s in next.intents && next.intents[s] == sys.intents[s])
  }

  /** The store's compare-and-swap accepts any change between two statuses. Exactly those are
      harmless that take a pending intent, with no call under way, anywhere but to submitted,
      and to a status that denies an order only when none was made. */
  lemma HarmlessTransitions(sys: System, s: Id, from: Status, to: Status)
    requires Safe(sys) && RejectedUnsent(sys, s) && Transition(sys.intents, s, from, to).Some?
    ensures Harmless(sys, sys.(intents := Transition(sys.intents, s, from, to).value), s) <==>
              && Pending(from) && to != Submitted && s !in sys.memory
              && (to in {Ready, NotSubmitted, Rejected} ==> Made(sys, s) == 0)
  {
    hide SafeFor;
    var next := sys.(intents := Transition(sys.intents, s, from, to).value);
    assert SafeFor(sys, s);
    forall other | other != s ensures SafeFor(next, other) {
      assert SafeFor(sys, other);
      TransitionTouchesOne(sys, s, from, to, other);
      SafeTransfers(sys, next, other);
    }
    assert Safe(next) <==> SafeFor(next, s);
    SafeTransition(sys, s, from, to);
  }

  lemma SafeTransition(sys: System, s: Id, from: Status, to: Status)
    requires SafeFor(sys, s) && RejectedUnsent(sys, s) && Transition(sys.intents, s, from, to).Some?
    ensures var next := sys.(intents := Transition(sys.intents, s, from, to).value);
            SafeFor(next, s) && RejectedUnsent(next, s) && Pending(from) <==>
              && Pending(from) && to != Submitted && s !in sys.memory
              && (to in {Ready, NotSubmitted, Rejected} ==> Made(sys, s) == 0)
  {
  }

  /** An intent that is made ready again although its order exists is placed a second time by
      the ordinary steps. */
  lemma ReadyAgainPlacesTwice(sys: System, s: Id, from: Status, order: Order)
    requires Safe(sys) && BookOf(sys, s) != [] && Transition(sys.intents, s, from, Ready).Some?
    ensures var ready := sys.(intents := Transition(sys.intents, s, from, Ready).value);
            var t := Run(ready, [Begin(s), Dispatch(s), Execute(s, order)]);
            t.Some? && BookOf(t.value, s) == BookOf(sys, s) + [order] && |BookOf(t.value, s)| == 2
  {
    hide Judge, Honest;
    assert SafeFor(sys, s);
    var ready := sys.(intents := Transition(sys.intents, s, from, Ready).value);
    var begun := Take(ready, Begin(s)).value;
    var sent := Take(begun, Dispatch(s)).value;
    var done := Take(sent, Execute(s, order)).value;
    assert BookOf(done, s) == BookOf(sys, s) + [order];
    hide Take;
    assert [] + [Begin(s), Dispatch(s), Execute(s, order)] == [Begin(s), Dispatch(s), Execute(s, order)];
    RunThree(ready, [], Begin(s), Dispatch(s), Execute(s, order));
  }

  /** Such a system is reached whenever a placement succeeds: the store would then let the
      submitted intent be made ready again, and a second order would follow. */
  lemma SubmittedCanBeReplaced(s: Id, signal: Signal, order: Order, again: Order)
    requires order.terms == signal.terms
    ensures var placed := Run(EMPTY, RequestSteps(s, signal) + [Execute(s, order), Hear(s, Placed(order)), Persist(s)]);
            && placed.Some? && s in placed.value.intents && placed.value.intents[s].status == Submitted
            && var swapped := Transition(placed.value.intents, s, Submitted, Ready);
               && swapped.Some?
               && var t := Run(placed.value.(intents := swapped.value), [Begin(s), Dispatch(s), Execute(s, again)]);
                  t.Some? && BookOf(t.value, s) == [order, again]
  {
    RequestIsReached(s, signal);
    var sent := Requested(s, signal, Submitting);
    var made := sent.(inFlight := sent.inFlight - multiset{s}, book := sent.book[s := [] + [order]]);
    var heard := made.(memory := made.memory[s := Heard(Placed(order))]);
    assert Take(sent, Execute(s, order)) == Some(made);
    assert Take(made, Hear(s, Placed(order))) == Some(heard);
    var forgot := heard.(memory := heard.memory - {s});
    var stored := forgot.(intents := forgot.intents[s := forgot.intents[s].(status := Submitted)],
                          orders := forgot.orders[s := order]);
    assert Take(heard, Persist(s)) == Some(stored);
    assert BookOf(stored, s) == [order];
    assert Transition(stored.intents, s, Submitted, Ready).Some?;
    hide Take, Run, Transition, Requested;
    RunThree(EMPTY, RequestSteps(s, signal), Execute(s, order), Hear(s, Placed(order)), Persist(s));
    EmptyIsSafe();
    RunKeepsSafe(EMPTY, RequestSteps(s, signal) + [Execute(s, order), Hear(s, Placed(order)), Persist(s)]);
    ReadyAgainPlacesTwice(stored, s, Submitted, again);
  }

  // ---------------------------------------------------------------------------
  // Exchange order identifiers
  // ---------------------------------------------------------------------------

  /** A resolution is accepted exactly for an intent that is ready, submitting or unknown, with an
      order exactly when it is submitted; the order is of the intent's account, the first of
      its intent, and its identifier is not taken in that account. It changes nothing else. */
  lemma ResolutionIsAccepted(sys: System, s: Id, status: Status, order: Option<Order>)
    ensures Resolve(sys, s, status, order).Some? <==>
              && s in sys.intents
              && (sys.intents[s].status.Ready? || sys.intents[s].status.Submitting? || sys.intents[s].status.Unknown?)
              && !status.Ready? && !status.Submitting? && (order.Some? <==> status == Submitted)
              && (order.Some? ==>
                    && order.value.terms.account == sys.intents[s].terms.account && s !in sys.orders
                    && forall other :: other in sys.orders &&
                                       sys.orders[other].terms.account == order.value.terms.account ==>
                         sys.orders[other].id != order.value.id)
    ensures Resolve(sys, s, status, order).Some? ==>
              Resolve(sys, s, status, order).value ==
              sys.(intents := sys.intents[s := sys.intents[s].(status := status)],
                   orders := if order.Some? then sys.orders[s := order.value] else sys.orders)
  {
  }

  /** Two recorded orders of one account never share their exchange identifier. */
  predicate DistinctOrders(sys: System) {
    forall a, b :: a in sys.orders && b in sys.orders && a != b &&
                   sys.orders[a].terms.account == sys.orders[b].terms.account ==>
      sys.orders[a].id != sys.orders[b].id
  }

  lemma ResolveKeepsDistinct(sys: System, s: Id, status: Status, order: Option<Order>)
    requires DistinctOrders(sys) && Resolve(sys, s, status, order).Some?
    ensures DistinctOrders(Resolve(sys, s, status, order).value)
  {
  }

  lemma StepKeepsDistinct(sys: System, step: Step)
    requires DistinctOrders(sys) && Take(sys, step).Some?
    ensures DistinctOrders(Take(sys, step).value)
  {
    hide Judge, Honest, Resolve;
    match step
    case Persist(s) =>
      var forgot := sys.(memory := sys.memory - {s});
      var verdict := Judge(sys.intents[s], sys.memory[s].reply);
      if verdict.RecordOrder? {
        ResolveKeepsDistinct(forgot, s, Submitted, Some(verdict.order));
      } else if verdict.ResolveAs? {
        ResolveKeepsDistinct(forgot, s, verdict.status, None);
      }
    case Recover(s, order) => ResolveKeepsDistinct(sys, s, Submitted, Some(order));
    case _ =>
  }

  /** In every run the recorded orders of an account have distinct exchange identifiers. */
  lemma {:induction false} ExchangeIdsAreUnique(steps: seq<Step>)
    requires Run(EMPTY, steps).Some?
    ensures DistinctOrders(Run(EMPTY, steps).value)
  {
    hide Take, DistinctOrders;
    if steps == [] {
      NoOrders();
    } else {
      ExchangeIdsAreUnique(steps[..|steps| - 1]);
      StepKeepsDistinct(Run(EMPTY, steps[..|steps| - 1]).value, steps[|steps| - 1]);
    }
  }

  lemma NoOrders()
    ensures DistinctOrders(EMPTY)
  {
  }
}
