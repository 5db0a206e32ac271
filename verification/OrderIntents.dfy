/** Signals become risk decisions, order intents and exchange orders. The durable tables, the
    exchange and what the agent holds in memory form one transition system; a crash wipes
    the memory between any two steps, and the exchange executes every request it receives. */
module OrderIntents {
  import opened Decimals
  import opened Accounting

  /** Signal identifiers; decision, intent and client order identifiers are digests of them. */
  type Id = int

  type Name = string

  datatype Status = Ready | Submitting | Submitted | Rejected | Unknown | Failed | NotSubmitted

  datatype Terms = Terms(account: Name, instrument: Name, side: Side, quantity: real, limit: Option<real>)

  datatype Signal = Signal(strategy: Name, terms: Terms)

  datatype Intent = Intent(strategy: Name, terms: Terms, status: Status)

  /** An order on the exchange under the client identifier it was requested with. */
  datatype Order = Order(id: Name, terms: Terms)

  datatype Category = InvalidRequest | Authentication | Permission | NotFound | InsufficientFunds | RateLimited
                    | Transient | UnknownOutcomeError | RejectedOrder | Permanent | Canceled

  /** Whether a failed request was applied; an error that leaves it unset says nothing. */
  datatype Outcome = KnownNotApplied | OutcomeUnknown | OutcomeUnset

  /** What a placement call returns: an order, an exchange error, or any other error. */
  datatype Reply = Placed(order: Order) | ExchangeError(category: Category, outcome: Outcome) | OtherError

  /** How far the agent in memory has got with a placement. */
  datatype Phase = Claimed | Awaiting | Heard(reply: Reply)

  datatype System = System(signals: map<Id, Signal>, decisions: map<Id, bool>, intents: map<Id, Intent>,
      orders: map<Id, Order>,
                           book: map<Id, seq<Order>>, inFlight: multiset<Id>, memory: map<Id, Phase>)

  const EMPTY := System(map[], map[], map[], map[], map[], multiset{}, map[])

  /** Error categories on which the agent gives an intent up. */
  const REJECTIONS: set<Category> := {RejectedOrder, InvalidRequest, InsufficientFunds, Permission, Authentication}

  /** What the agent does with a reply, branch by branch. */
  datatype Verdict = RecordOrder(order: Order) | ResolveAs(status: Status) | ReturnToReady | LeaveSubmitting

  function Judge(intent: Intent, reply: Reply): Verdict {
    match reply
    case Placed(order) => if order.terms == intent.terms then RecordOrder(order) else LeaveSubmitting
    case ExchangeError(category, outcome) =>
      if outcome == OutcomeUnknown then ResolveAs(Unknown)
      else if category in REJECTIONS then ResolveAs(Rejected)
      else if outcome == KnownNotApplied && category in {RateLimited, Transient} then ReturnToReady
      else LeaveSubmitting
    case OtherError => ResolveAs(Unknown)
  }

  predicate Pending(status: Status) {
    status in {Ready, Submitting, Unknown}
  }

  // ---------------------------------------------------------------------------
  // Store transactions
  // ---------------------------------------------------------------------------

  /** A compare-and-swap of one intent's status; no other row changes. */
  function Transition(intents: map<Id, Intent>, s: Id, from: Status, to: Status): Option<map<Id, Intent>> {
    if from == to || s !in intents || intents[s].status != from then None
    else Some(intents[s := intents[s].(status := to)])
  }

  /** Exchange order identifiers are unique within an account. */
  predicate IdTaken(orders: map<Id, Order>, order: Order) {
    exists s :: s in orders && orders[s].id == order.id && orders[s].terms.account == order.terms.account
  }

  /** Resolves a pending intent; a submitted one comes with its order row. */
  function Resolve(sys: System, s: Id, status: Status, order: Option<Order>): Option<System> {
    if status !in {Submitted, Rejected, Unknown, Failed, NotSubmitted} || (status == Submitted) != order.Some? then None
    else if s !in sys.intents || !Pending(sys.intents[s].status) then None
    else if order.Some? && (order.value.terms.account != sys.intents[s].terms.account || s in sys.orders) then None
    else if order.Some? && IdTaken(sys.orders, order.value) then None
    else
      var next := sys.(intents := sys.intents[s := sys.intents[s].(status := status)]);
      Some(if order.Some? then next.(orders := sys.orders[s := order.value]) else next)
  }

  /** Records a decision, and with an allowed one the ready intent, unless one is recorded. */
  function Decide(sys: System, s: Id, allow: bool): Option<System> {
    if s !in sys.signals || s in sys.decisions || (allow && s in sys.intents) then None
    else
      var next := sys.(decisions := sys.decisions[s := allow]);
      var signal := sys.signals[s];
      Some(if allow then next.(intents := sys.intents[s := Intent(signal.strategy, signal.terms, Ready)]) else next)
  }

  /** In a safe system any known signal without a decision may be decided, either way: the
      decision is recorded, and exactly an allowed one gets a ready intent on its terms. */
  lemma DecisionIsRecorded(sys: System, s: Id, allow: bool)
    requires s in sys.intents ==> s in sys.decisions
    ensures Take(sys, DecideOn(s, allow)).Some? <==> s in sys.signals && s !in sys.decisions
    ensures Take(sys, DecideOn(s, allow)).Some? ==>
              var t := Take(sys, DecideOn(s, allow)).value;
              && t.decisions == sys.decisions[s := allow]
              && t == sys.(decisions := t.decisions, intents := t.intents)
              && (allow ==> t.intents == sys.intents[s := Intent(sys.signals[s].strategy, sys.signals[s].terms, Ready)])
              && (!allow ==> t.intents == sys.intents)
  {
  }

  // ---------------------------------------------------------------------------
  // Steps
  // ---------------------------------------------------------------------------

  datatype Step =
    | Emit(s: Id, signal: Signal)          // a worker commits a signal
    | DecideOn(s: Id, allow: bool)
    | Begin(s: Id)                         // ready -> submitting, durably, before the call
    | Dispatch(s: Id)                      // the placement request leaves the agent
    | Execute(s: Id, order: Order)         // the exchange creates the requested order
    | Lose(s: Id)                          // the request never arrives
    | Hear(s: Id, reply: Reply)            // the call returns
    | Persist(s: Id)                       // the agent stores what the reply calls for
    | Recover(s: Id, order: Order)         // a lookup found the order; it is stored
    | Abandon(s: Id)                       // ready -> not submitted, when a strategy fails
    | Crash

  /** A reply the exchange may give to a request that was sent. */
  predicate Honest(sys: System, s: Id, reply: Reply) {
    match reply
    case Placed(order) => order in BookOf(sys, s)
    case ExchangeError(_, outcome) => outcome == KnownNotApplied ==> s in sys.inFlight
    case OtherError => true
  }

  function BookOf(sys: System, s: Id): seq<Order> {
    if s in sys.book then sys.book[s] else []
  }

  /** Orders of a signal that exist or may still come to exist. */
  function Made(sys: System, s: Id): nat {
    |BookOf(sys, s)| + sys.inFlight[s]
  }

  predicate NotApplied(reply: Reply) {
    reply.ExchangeError? && reply.outcome == KnownNotApplied
  }

  function Take(sys: System, step: Step): Option<System> {
    match step
    case Emit(s, signal) => if s in sys.signals then None else Some(sys.(signals := sys.signals[s := signal]))
    case DecideOn(s, allow) => Decide(sys, s, allow)
    case Begin(s) =>
      var next := Transition(sys.intents, s, Ready, Submitting);
      if next.None? then None else Some(sys.(intents := next.value, memory := sys.memory[s := Claimed]))
    case Dispatch(s) =>
      if s !in sys.memory || sys.memory[s] != Claimed then None
      else Some(sys.(inFlight := sys.inFlight + multiset{s}, memory := sys.memory[s := Awaiting]))
    case Execute(s, order) =>
      if s !in sys.inFlight then None
      else Some(sys.(inFlight := sys.inFlight - multiset{s}, book := sys.book[s := BookOf(sys, s) + [order]]))
    case Lose(s) =>
      if s !in sys.inFlight then None else Some(sys.(inFlight := sys.inFlight - multiset{s}))
    case Hear(s, reply) =>
      if s !in sys.memory || sys.memory[s] != Awaiting || !Honest(sys, s, reply) then None
      else
        var inFlight := if NotApplied(reply) then sys.inFlight - multiset{s} else sys.inFlight;
        Some(sys.(inFlight := inFlight, memory := sys.memory[s := Heard(reply)]))
    case Persist(s) =>
      if s !in sys.memory || !sys.memory[s].Heard? || s !in sys.intents then None
      else
        var forgot := sys.(memory := sys.memory - {s});
        (match Judge(sys.intents[s], sys.memory[s].reply)
         case RecordOrder(order) => Resolve(forgot, s, Submitted, Some(order))
         case ResolveAs(status) => Resolve(forgot, s, status, None)
         case ReturnToReady =>
           var next := Transition(sys.intents, s, Submitting, Ready);
           if next.None? then None else Some(forgot.(intents := next.value))
         case LeaveSubmitting => Some(forgot))
    case Recover(s, order) =>
      if order !in BookOf(sys,
          s) || s !in sys.intents || sys.intents[s].status == Ready || order.terms != sys.intents[s].terms then None
      else Resolve(sys, s, Submitted, Some(order))
    case Abandon(s) =>
      var next := Transition(sys.intents, s, Ready, NotSubmitted);
      if next.None? then None else Some(sys.(intents := next.value))
    case Crash => Some(sys.(memory := map[]))
  }

  /** The system after a run, absent when some step was not possible. */
  function Run(sys: System, steps: seq<Step>): Option<System> {
    if steps == [] then Some(sys)
    else
      var before := Run(sys, steps[..|steps| - 1]);
      if before.None? then None else Take(before.value, steps[|steps| - 1])
  }

  // ---------------------------------------------------------------------------
  // Safety
  // ---------------------------------------------------------------------------

  /** What holds of one signal in every reachable state. */
  predicate SafeFor(sys: System, s: Id) {
    && Made(sys, s) <= 1
    && (s in sys.decisions ==> s in sys.signals)
    && (s in sys.intents <==> s in sys.decisions && sys.decisions[s])
    && (s in sys.orders <==> s in sys.intents && sys.intents[s].status == Submitted)
    && (s in sys.orders ==> BookOf(sys, s) == [sys.orders[s]] && sys.orders[s].terms == sys.intents[s].terms)
    && (s in sys.intents ==>
         sys.intents[s].strategy == sys.signals[s].strategy && sys.intents[s].terms == sys.signals[s].terms)
    && (s !in sys.intents || sys.intents[s].status in {Ready, NotSubmitted} ==> Made(sys, s) == 0)
    && (s !in sys.intents || sys.intents[s].status == Ready ==> s !in sys.memory)
    && (s in sys.memory ==>
          match sys.memory[s]
          case Claimed => sys.intents[s].status == Submitting && Made(sys, s) == 0
          case Awaiting => Awaited(sys.intents[s].status)
          case Heard(reply) =>
            && Awaited(sys.intents[s].status)
            && (NotApplied(reply) ==> sys.intents[s].status == Submitting && Made(sys, s) == 0)
            && (reply.Placed? ==> reply.order in BookOf(sys, s)))
  }

  /** While a call is out, only a lookup may have settled the intent in the meantime. */
  predicate Awaited(status: Status) {
    status in {Submitting, Submitted}
  }

  ghost predicate Safe(sys: System) {
    forall s :: SafeFor(sys, s)
  }

  /** The signal a step is about; a crash is about all of them. */
  predicate Concerns(step: Step, s: Id) {
    step.Crash? || step.s == s
  }

  /** Everything about one signal is the same in both systems. */
  predicate SameFor(sys: System, t: System, s: Id) {
    && (s in t.signals <==> s in sys.signals) && (s in sys.signals ==> t.signals[s] == sys.signals[s])
    && (s in t.decisions <==> s in sys.decisions) && (s in sys.decisions ==> t.decisions[s] == sys.decisions[s])
    && (s in t.intents <==> s in sys.intents) && (s in sys.intents ==> t.intents[s] == sys.intents[s])
    && (s in t.orders <==> s in sys.orders) && (s in sys.orders ==> t.orders[s] == sys.orders[s])
    && (s in t.memory <==> s in sys.memory) && (s in sys.memory ==> t.memory[s] == sys.memory[s])
    && BookOf(t, s) == BookOf(sys, s) && t.inFlight[s] == sys.inFlight[s]
  }

  lemma ResolveTouchesOne(sys: System, s: Id, status: Status, order: Option<Order>, other: Id)
    requires other != s && Resolve(sys, s, status, order).Some?
    ensures SameFor(sys, Resolve(sys, s, status, order).value, other)
  {
  }

  lemma PersistTouchesOne(sys: System, s: Id, other: Id)
    requires other != s && Take(sys, Persist(s)).Some?
    ensures SameFor(sys, Take(sys, Persist(s)).value, other)
  {
    hide Resolve, SameFor, Honest;
    var forgot := sys.(memory := sys.memory - {s});
    ForgettingTouchesOne(sys, s, other);
    match Judge(sys.intents[s], sys.memory[s].reply)
    case RecordOrder(order) => ResolveTouchesOne(forgot, s, Submitted, Some(order), other); SameForTransitive(sys,
        forgot, Resolve(forgot, s, Submitted, Some(order)).value, other);
    case ResolveAs(status) => ResolveTouchesOne(forgot, s, status, None, other); SameForTransitive(sys, forgot,
        Resolve(forgot, s, status, None).value, other);
    case ReturnToReady => TransitionTouchesOne(forgot, s, Submitting, Ready, other); SameForTransitive(sys, forgot,
        Take(sys, Persist(s)).value, other);
    case LeaveSubmitting =>
  }

  lemma ForgettingTouchesOne(sys: System, s: Id, other: Id)
    requires other != s
    ensures SameFor(sys, sys.(memory := sys.memory - {s}), other)
  {
  }

  lemma TransitionTouchesOne(sys: System, s: Id, from: Status, to: Status, other: Id)
    requires other != s && Transition(sys.intents, s, from, to).Some?
    ensures SameFor(sys, sys.(intents := Transition(sys.intents, s, from, to).value), other)
  {
  }

  lemma SameForTransitive(sys: System, t: System, u: System, s: Id)
    requires SameFor(sys, t, s) && SameFor(t, u, s)
    ensures SameFor(sys, u, s)
  {
  }

  lemma DispatchTouchesOne(sys: System, s: Id, other: Id)
    requires other != s && Take(sys, Dispatch(s)).Some?
    ensures SameFor(sys, Take(sys, Dispatch(s)).value, other)
  {
    assert (sys.inFlight + multiset{s})[other] == sys.inFlight[other];
  }

  lemma NetworkTouchesOne(sys: System, step: Step, other: Id)
    requires Take(sys, step).Some? && (step.Execute? || step.Lose?) && step.s != other
    ensures SameFor(sys, Take(sys, step).value, other)
  {
    assert (sys.inFlight - multiset{step.s})[other] == sys.inFlight[other];
  }

  lemma HearTouchesOne(sys: System, s: Id, reply: Reply, other: Id)
    requires other != s && Take(sys, Hear(s, reply)).Some?
    ensures SameFor(sys, Take(sys, Hear(s, reply)).value, other)
  {
    hide Honest, NotApplied;
    var t := Take(sys, Hear(s, reply)).value;
    assert t == sys.(inFlight := t.inFlight, memory := sys.memory[s := Heard(reply)]);
    if NotApplied(reply) {
      assert t.inFlight == sys.inFlight - multiset{s};
    }
    assert t.inFlight[other] == sys.inFlight[other];
  }

  lemma DecideTouchesOne(sys: System, s: Id, allow: bool, other: Id)
    requires other != s && Decide(sys, s, allow).Some?
    ensures SameFor(sys, Decide(sys, s, allow).value, other)
  {
  }

  /** A step leaves every entry of the signals it is not about. */
  lemma OthersUntouched(sys: System, step: Step, s: Id)
    requires Take(sys, step).Some? && !Concerns(step, s)
    ensures SameFor(sys, Take(sys, step).value, s)
  {
    hide Judge, Honest, Resolve, Decide;
    match step
    case Persist(_) => PersistTouchesOne(sys, step.s, s);
    case Recover(_, _) => ResolveTouchesOne(sys, step.s, Submitted, Some(step.order), s);
    case DecideOn(_, allow) => DecideTouchesOne(sys, step.s, allow, s);
    case Dispatch(_) => DispatchTouchesOne(sys, step.s, s);
    case Execute(_, _) => NetworkTouchesOne(sys, step, s);
    case Lose(_) => NetworkTouchesOne(sys, step, s);
    case Hear(_, reply) => HearTouchesOne(sys, step.s, reply, s);
    case Abandon(_) => TransitionTouchesOne(sys, step.s, Ready, NotSubmitted, s);
    case Begin(_) =>
    case Emit(_, _) =>
  }

  lemma SafeTransfers(sys: System, t: System, s: Id)
    requires SafeFor(sys, s) && SameFor(sys, t, s)
    ensures SafeFor(t, s)
  {
  }

  lemma EmitKeepsSafe(sys: System, step: Step, s: Id)
    requires SafeFor(sys, s) && (step.Emit?) && Concerns(step, s) && Take(sys, step).Some?
    ensures SafeFor(Take(sys, step).value, s)
  {
  }

  lemma DecideKeepsSafe(sys: System, step: Step, s: Id)
    requires SafeFor(sys, s) && (step.DecideOn?) && Concerns(step, s) && Take(sys, step).Some?
    ensures SafeFor(Take(sys, step).value, s)
  {
  }

  lemma BeginKeepsSafe(sys: System, step: Step, s: Id)
    requires SafeFor(sys, s) && (step.Begin?) && Concerns(step, s) && Take(sys, step).Some?
    ensures SafeFor(Take(sys, step).value, s)
  {
  }

  lemma DispatchKeepsSafe(sys: System, step: Step, s: Id)
    requires SafeFor(sys, s) && (step.Dispatch?) && Concerns(step, s) && Take(sys, step).Some?
    ensures SafeFor(Take(sys, step).value, s)
  {
  }

  lemma NetworkKeepsSafe(sys: System, step: Step, s: Id)
    requires SafeFor(sys, s) && (step.Execute? || step.Lose?) && Concerns(step, s) && Take(sys, step).Some?
    ensures SafeFor(Take(sys, step).value, s)
  {
  }

  lemma HearKeepsSafe(sys: System, step: Step, s: Id)
    requires SafeFor(sys, s) && (step.Hear?) && Concerns(step, s) && Take(sys, step).Some?
    ensures SafeFor(Take(sys, step).value, s)
  {
  }

  lemma TransitionOf(intents: map<Id, Intent>, s: Id, from: Status, to: Status)
    requires Transition(intents, s, from, to).Some?
    ensures s in intents && intents[s].status == from
    ensures Transition(intents, s, from, to).value == intents[s := intents[s].(status := to)]
  {
  }

  lemma PersistKeepsSafe(sys: System, step: Step, s: Id)
    requires SafeFor(sys, s) && (step.Persist?) && Concerns(step, s) && Take(sys, step).Some?
    ensures SafeFor(Take(sys, step).value, s)
  {
    hide Honest, Transition;
    match Judge(sys.intents[s], sys.memory[s].reply)
    case RecordOrder(order) =>
    case ResolveAs(status) =>
    case ReturnToReady => TransitionOf(sys.intents, s, Submitting, Ready);
    case LeaveSubmitting =>
  }

  lemma RecoverKeepsSafe(sys: System, step: Step, s: Id)
    requires SafeFor(sys, s) && (step.Recover?) && Concerns(step, s) && Take(sys, step).Some?
    ensures SafeFor(Take(sys, step).value, s)
  {
  }

  lemma AbandonKeepsSafe(sys: System, step: Step, s: Id)
    requires SafeFor(sys, s) && (step.Abandon?) && Concerns(step, s) && Take(sys, step).Some?
    ensures SafeFor(Take(sys, step).value, s)
  {
  }

  lemma CrashKeepsSafe(sys: System, step: Step, s: Id)
    requires SafeFor(sys, s) && (step.Crash?) && Concerns(step, s) && Take(sys, step).Some?
    ensures SafeFor(Take(sys, step).value, s)
  {
  }

  lemma StepKeepsSafe(sys: System, step: Step)
    requires Safe(sys) && Take(sys, step).Some?
    ensures Safe(Take(sys, step).value)
  {
    hide Take, SafeFor, SameFor;
    forall s ensures SafeFor(Take(sys, step).value, s) {
      assert SafeFor(sys, s);
      if !Concerns(step, s) {
        OthersUntouched(sys, step, s);
        SafeTransfers(sys, Take(sys, step).value, s);
      } else {
        match step
        case Emit(_, _) => EmitKeepsSafe(sys, step, s);
        case DecideOn(_, _) => DecideKeepsSafe(sys, step, s);
        case Begin(_) => BeginKeepsSafe(sys, step, s);
        case Dispatch(_) => DispatchKeepsSafe(sys, step, s);
        case Execute(_, _) => NetworkKeepsSafe(sys, step, s);
        case Lose(_) => NetworkKeepsSafe(sys, step, s);
        case Hear(_, _) => HearKeepsSafe(sys, step, s);
        case Persist(_) => PersistKeepsSafe(sys, step, s);
        case Recover(_, _) => RecoverKeepsSafe(sys, step, s);
        case Abandon(_) => AbandonKeepsSafe(sys, step, s);
        case Crash => CrashKeepsSafe(sys, step, s);
      }
    }
  }

  lemma RunAppended(sys: System, steps: seq<Step>, step: Step)
    requires Run(sys, steps).Some?
    ensures Run(sys, steps + [step]) == Take(Run(sys, steps).value, step)
  {
    hide Take;
    assert (steps + [step])[..|steps|] == steps;
  }

  lemma EmptyIsSafe()
    ensures Safe(EMPTY)
  {
  }

  lemma {:induction false} RunKeepsSafe(sys: System, steps: seq<Step>)
    requires Safe(sys) && Run(sys, steps).Some?
    ensures Safe(Run(sys, steps).value)
  {
    hide Take, SafeFor;
    if steps != [] {
      RunKeepsSafe(sys, steps[..|steps| - 1]);
      StepKeepsSafe(Run(sys, steps[..|steps| - 1]).value, steps[|steps| - 1]);
    }
  }

  /** Whatever happens, crashes included, at most one order is ever created for a signal,
      and an order recorded as submitted is that order, with the terms of the intent. */
  lemma AtMostOneOrder(steps: seq<Step>, s: Id)
    requires Run(EMPTY, steps).Some?
    ensures var sys := Run(EMPTY, steps).value;
            && |BookOf(sys, s)| <= 1
            && (s in sys.orders <==> s in sys.intents && sys.intents[s].status == Submitted)
            && (s in sys.orders ==> BookOf(sys, s) == [sys.orders[s]] && sys.orders[s].terms == sys.intents[s].terms)
            && (s in sys.intents <==> s in sys.decisions && sys.decisions[s])
            && (s in sys.intents && sys.intents[s].status in {Ready, NotSubmitted} ==> BookOf(sys, s) == [])
  {
    hide Run;
    EmptyIsSafe();
    RunKeepsSafe(EMPTY, steps);
    assert SafeFor(Run(EMPTY, steps).value, s);
  }

  /** A decision is never changed, and a resolved intent never moves again. */
  lemma StepKeepsTerminal(sys: System, step: Step, s: Id)
    requires Safe(sys) && Take(sys, step).Some?
    ensures var t := Take(sys, step).value;
            && (s in sys.decisions ==> s in t.decisions && t.decisions[s] == sys.decisions[s])
            && (s in sys.intents ==> s in t.intents && t.intents[s] == sys.intents[s].(status := t.intents[s].status))
            && (s in sys.intents && !Pending(sys.intents[s].status) ==> t.intents[s] == sys.intents[s])
            && (s in sys.orders ==> s in t.orders && t.orders[s] == sys.orders[s])
  {
    assert SafeFor(sys, s);
    if !Concerns(step, s) {
      hide Take, SafeFor;
      OthersUntouched(sys, step, s);
    }
  }

  lemma {:induction false} ResolvedForever(sys: System, steps: seq<Step>, s: Id)
    requires Safe(sys) && Run(sys, steps).Some? && s in sys.intents && !Pending(sys.intents[s].status)
    ensures var t := Run(sys, steps).value;
            && s in t.intents && t.intents[s] == sys.intents[s]
            && (sys.intents[s].status == NotSubmitted ==> BookOf(t, s) == [])
  {
    hide Take, SafeFor, BookOf;
    if steps != [] {
      var before := Run(sys, steps[..|steps| - 1]).value;
      RunKeepsSafe(sys, steps[..|steps| - 1]);
      ResolvedForever(sys, steps[..|steps| - 1], s);
      StepKeepsTerminal(before, steps[|steps| - 1], s);
    }
    RunKeepsSafe(sys, steps);
    if sys.intents[s].status == NotSubmitted {
      NoOrderWhenUnsent(Run(sys, steps).value, s);
    }
  }

  lemma NoOrderWhenUnsent(sys: System, s: Id)
    requires SafeFor(sys, s) && s in sys.intents && sys.intents[s].status == NotSubmitted
    ensures BookOf(sys, s) == []
  {
  }

  /** An intent returns to ready only on an error known not to have been applied, is marked
      unknown exactly when the outcome is reported unknown or the error is none of the
      exchange's, and is rejected on every other error of a rejecting category. */
  lemma ReadyOnlyWhenNotApplied(intent: Intent, reply: Reply)
    ensures Judge(intent, reply) == ReturnToReady <==> NotApplied(reply) && reply.category in {RateLimited, Transient}
    ensures Judge(intent, reply) == ResolveAs(Unknown) <==>
              reply.OtherError? || (reply.ExchangeError? && reply.outcome == OutcomeUnknown)
    ensures Judge(intent, reply).ResolveAs? ==> Judge(intent, reply).status in {Unknown, Rejected}
    ensures Judge(intent, reply) == ResolveAs(Rejected) <==>
              && reply.ExchangeError? && reply.outcome != OutcomeUnknown
              && reply.category in {RejectedOrder, InvalidRequest, InsufficientFunds, Permission, Authentication}
    ensures Judge(intent, reply).RecordOrder? <==> reply.Placed? && reply.order.terms == intent.terms
  {
  }

  // ---------------------------------------------------------------------------
  // The error mapping of the exchange adapter
  // ---------------------------------------------------------------------------

  datatype Code = CodeCanceled | CodeInvalidArgument | CodeUnauthenticated | CodePermissionDenied | CodeNotFound
                | CodeResourceExhausted | CodeUnavailable | CodeDeadlineExceeded | CodeInternal | CodeFailedPrecondition
                | CodeOther

  function CategoryOf(code: Code): Category {
    match code
    case CodeCanceled => Canceled
    case CodeInvalidArgument => InvalidRequest
    case CodeUnauthenticated => Authentication
    case CodePermissionDenied => Permission
    case CodeNotFound => NotFound
    case CodeResourceExhausted => RateLimited
    case CodeUnavailable => Transient
    case CodeDeadlineExceeded => Transient
    case CodeInternal => Transient
    case CodeFailedPrecondition => RejectedOrder
    case CodeOther => Permanent
  }

  /** Errors of a mutation: only those the server answers before acting keep their category. */
  function MutationError(code: Code): Reply {
    var category := CategoryOf(code);
    if category in {InvalidRequest, Authentication, Permission, NotFound, InsufficientFunds, RateLimited,
        RejectedOrder} then
      ExchangeError(category, KnownNotApplied)
    else ExchangeError(UnknownOutcomeError, OutcomeUnknown)
  }

  /** Of all transport errors only an exhausted rate limit leads to another attempt; every
      error after which the order may exist leaves the intent for a lookup. */
  lemma OnlyRateLimitsAreRetried(intent: Intent, code: Code)
    ensures Judge(intent, MutationError(code)) == ReturnToReady <==> code == CodeResourceExhausted
    ensures Judge(intent, MutationError(code)) == ResolveAs(Unknown) <==>
              code in {CodeCanceled, CodeUnavailable, CodeDeadlineExceeded, CodeInternal, CodeOther}
    ensures Judge(intent, MutationError(code)) == ResolveAs(Rejected) <==>
              code in {CodeInvalidArgument, CodeUnauthenticated, CodePermissionDenied, CodeFailedPrecondition}
    ensures Judge(intent, MutationError(code)) == LeaveSubmitting <==> code == CodeNotFound
  {
  }
}
