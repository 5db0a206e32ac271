/** Event-sourced strategy state: a worker folds market events into a durable row, one
    atomic commit per event, and emits signals in the same commit. */
module StrategyEvents {
  import opened Decimals

  type Name = string

  /** Serialized strategy state; its checksum is a digest of it. */
  type State = string

  datatype Kind = Trade | OrderBook | CandleClose | OtherKind

  datatype Event = Event(account: Name, instrument: Name, kind: Kind, time: int, sequence: nat, body: string)

  /** Time in nanoseconds, then priority, then sequence. */
  datatype Cursor = Cursor(time: int, priority: nat, sequence: nat)

  datatype Draft = Draft(body: string, valid: bool)

  /** Signal identifiers are digests of these fields, the time in full precision. */
  datatype Signal = Signal(strategy: Name, cursor: Cursor, ordinal: nat, draft: Draft)

  datatype Reaction = Reaction(state: State, drafts: seq<Draft>)

  datatype Worker = Worker(strategy: Name, account: Name, instrument: Name, initial: State,
                           onEvent: (State, Event) -> Option<Reaction>)

  /** One row of the strategy table; the cursor is kept in microseconds. */
  datatype Row = Row(state: State, cursor: Cursor, revision: nat)

  datatype Database = Database(rows: map<Name, Row>, signals: seq<Signal>)

  datatype Error = WrongWorker | OutOfOrder | StrategyError | TooManySignals | InvalidDraft
                 | VersionConflict | CursorRegressed | ForeignSignal | SignalConflict

  const MAX_SIGNALS: nat := 65535

  function Priority(kind: Kind): nat {
    match kind
    case Trade => 30
    case OrderBook => 40
    case CandleClose => 50
    case OtherKind => 10
  }

  function CursorFor(event: Event): Cursor {
    Cursor(event.time, Priority(event.kind), event.sequence)
  }

  function Compare(left: Cursor, right: Cursor): int {
    if left.time < right.time then -1
    else if left.time > right.time then 1
    else if left.priority < right.priority then -1
    else if left.priority > right.priority then 1
    else if left.sequence < right.sequence then -1
    else if left.sequence > right.sequence then 1
    else 0
  }

  /** The store's own comparison. */
  predicate CursorLess(left: Cursor, right: Cursor) {
    if left.time != right.time then left.time < right.time
    else if left.priority != right.priority then left.priority < right.priority
    else left.sequence < right.sequence
  }

  /** The two comparisons agree, and both are total orders. */
  lemma ComparisonsAgree(a: Cursor, b: Cursor, c: Cursor)
    ensures CursorLess(a, b) <==> Compare(a, b) < 0
    ensures Compare(a, b) == 0 <==> a == b
    ensures Compare(a, b) == -Compare(b, a)
    ensures Compare(a, b) <= 0 && Compare(b, c) <= 0 ==> Compare(a, c) <= 0
    ensures Compare(a, b) < 0 && Compare(b, c) < 0 ==> Compare(a, c) < 0
  {
  }

  /** Earlier events come first; of events at one instant, other kinds come before trades, trades before order books and
      those before candle closes, whatever their sequence numbers. */
  lemma KindsAreOrdered(a: Event, b: Event)
    requires a.time == b.time
    ensures a.kind == Trade && b.kind in {OrderBook, CandleClose} ==> Compare(CursorFor(a), CursorFor(b)) < 0
    ensures a.kind == OrderBook && b.kind == CandleClose ==> Compare(CursorFor(a), CursorFor(b)) < 0
    ensures a.kind == OtherKind && b.kind != OtherKind ==> Compare(CursorFor(a), CursorFor(b)) < 0
    ensures forall later: int :: later > b.time ==> Compare(CursorFor(a), CursorFor(b.(time := later))) < 0
    ensures a.kind == b.kind ==> (Compare(CursorFor(a), CursorFor(b)) < 0 <==> a.sequence < b.sequence)
  {
  }

  /** Stored cursors keep microseconds only. */
  function Truncate(c: Cursor): Cursor {
    c.(time := c.time / 1000 * 1000)
  }

  predicate AlignedTime(time: int) {
    time % 1000 == 0
  }

  // ---------------------------------------------------------------------------
  // The atomic commit
  // ---------------------------------------------------------------------------

  datatype CommitRequest = CommitRequest(strategy: Name, expected: nat, state: State, cursor: Cursor,
      signals: seq<Signal>)

  /** Two signals may share neither an identifier nor a stored cursor and ordinal. */
  predicate Clashes(a: Signal, b: Signal) {
    a == b || (a.strategy == b.strategy && Truncate(a.cursor) == Truncate(b.cursor) && a.ordinal == b.ordinal)
  }

  function InsertSignals(rows: seq<Signal>, c: CommitRequest, signals: seq<Signal>): Result<seq<Signal>, Error> {
    if signals == [] then Ok(rows)
    else
      var last := signals[|signals| - 1];
      var before :- InsertSignals(rows, c, signals[..|signals| - 1]);
      if last.strategy != c.strategy || last.cursor != c.cursor then Err(ForeignSignal)
      else if exists i :: 0 <= i < |before| && Clashes(before[i], last) then Err(SignalConflict)
      else Ok(before + [last])
  }

  /** State, cursor and signals are written together if the row is at the expected revision. */
  function Commit(db: Database, c: CommitRequest): Result<Database, Error> {
    if c.strategy in db.rows && db.rows[c.strategy].revision != c.expected then
      if db.rows[c.strategy].cursor == Truncate(c.cursor) && db.rows[c.strategy].state == c.state then Ok(db)
      else Err(VersionConflict)
    else if c.strategy in db.rows && CursorLess(c.cursor, db.rows[c.strategy].cursor) then Err(CursorRegressed)
    else if c.strategy !in db.rows && c.expected != 0 then Err(VersionConflict)
    else
      var signals :- InsertSignals(db.signals, c, c.signals);
      Ok(Database(db.rows[c.strategy := Row(c.state, Truncate(c.cursor), c.expected + 1)], signals))
  }

  // ---------------------------------------------------------------------------
  // One delivery
  // ---------------------------------------------------------------------------

  /** Emitted: the event was folded in; Ignored: it is the last one again. */
  datatype Outcome = Emitted(signals: seq<Signal>) | Ignored | Refused(error: Error)

  datatype Delivery = Delivery(db: Database, outcome: Outcome)

  function Stamp(w: Worker, cursor: Cursor, drafts: seq<Draft>): (signals: seq<Signal>)
    ensures |signals| == |drafts|
    ensures forall i :: 0 <= i < |drafts| ==> signals[i] == Signal(w.strategy, cursor, i, drafts[i])
  {
    seq(|drafts|, i requires 0 <= i < |drafts| => Signal(w.strategy, cursor, i, drafts[i]))
  }

  function CurrentState(db: Database, w: Worker): State {
    if w.strategy in db.rows then db.rows[w.strategy].state else w.initial
  }

  function Revision(db: Database, strategy: Name): nat {
    if strategy in db.rows then db.rows[strategy].revision else 0
  }

  /** What the strategy makes of an event, if it may be committed. */
  function React(w: Worker, state: State, event: Event): Result<Reaction, Error> {
    var reaction := w.onEvent(state, event);
    if reaction.None? then Err(StrategyError)
    else if |reaction.value.drafts| > MAX_SIGNALS then Err(TooManySignals)
    else if exists i :: 0 <= i < |reaction.value.drafts| && !reaction.value.drafts[i].valid then Err(InvalidDraft)
    else Ok(reaction.value)
  }

  /** What a worker asks the store to commit for an event, given the row it loaded. */
  function Prepare(db: Database, w: Worker, event: Event): Result<CommitRequest, Outcome> {
    var cursor := CursorFor(event);
    if event.account != w.account || event.instrument != w.instrument then Err(Refused(WrongWorker))
    else if w.strategy in db.rows && Compare(cursor, db.rows[w.strategy].cursor) == 0 then Err(Ignored)
    else if w.strategy in db.rows && Compare(cursor, db.rows[w.strategy].cursor) < 0 then Err(Refused(OutOfOrder))
    else
      var reaction := React(w, CurrentState(db, w), event);
      if reaction.Err? then Err(Refused(reaction.error))
      else
        Ok(CommitRequest(w.strategy, Revision(db, w.strategy), reaction.value.state, cursor,
                         Stamp(w, cursor, reaction.value.drafts)))
  }

  function Deliver(db: Database, w: Worker, event: Event): Delivery {
    match Prepare(db, w, event)
    case Err(outcome) => Delivery(db, outcome)
    case Ok(c) =>
      match Commit(db, c)
      case Err(e) => Delivery(db, Refused(e))
      case Ok(next) => Delivery(next, Emitted(c.signals))
  }

  // ---------------------------------------------------------------------------
  // Whole runs
  // ---------------------------------------------------------------------------

  /** The database after deliveries, and the events that were folded in. */
  function After(db: Database, w: Worker, events: seq<Event>): Database {
    if events == [] then db else Deliver(After(db, w, events[..|events| - 1]), w, events[|events| - 1]).db
  }

  function Accepted(db: Database, w: Worker, events: seq<Event>): seq<Event> {
    if events == [] then []
    else
      var init, last := events[..|events| - 1], events[|events| - 1];
      Accepted(db, w, init) + if Deliver(After(db, w, init), w, last).outcome.Emitted? then [last] else []
  }

  /** The fold of the strategy over a history, with the signals of every step. */
  datatype Fold = Fold(state: State, signals: seq<Signal>)

  function FoldEvents(w: Worker, history: seq<Event>): Option<Fold> {
    if history == [] then Some(Fold(w.initial, []))
    else
      var last := history[|history| - 1];
      var before := FoldEvents(w, history[..|history| - 1]);
      if before.None? || !Usable(w, before.value.state, last) then None
      else
        var reaction := w.onEvent(before.value.state, last).value;
        Some(Fold(reaction.state, before.value.signals + Stamp(w, CursorFor(last), reaction.drafts)))
  }

  /** The strategy answers the event with drafts that may all become signals. */
  predicate Usable(w: Worker, state: State, event: Event) {
    var reaction := w.onEvent(state, event);
    && reaction.Some? && |reaction.value.drafts| <= 65535
    && forall i :: 0 <= i < |reaction.value.drafts| ==> reaction.value.drafts[i].valid
  }

  /** A worker commits what its strategy answered, unchanged, exactly when that is usable. */
  lemma ReactionIsAnswer(w: Worker, state: State, event: Event)
    ensures React(w, state, event).Ok? <==> Usable(w, state, event)
    ensures React(w, state, event).Ok? ==> Some(React(w, state, event).value) == w.onEvent(state, event)
  {
  }

  function SignalsOf(signals: seq<Signal>, strategy: Name): seq<Signal> {
    if signals == [] then []
    else
      var last := signals[|signals| - 1];
      SignalsOf(signals[..|signals| - 1], strategy) + if last.strategy == strategy then [last] else []
  }

  /** Each event comes after the stored cursor of the one before it. */
  predicate Ascending(history: seq<Event>) {
    forall i :: 0 < i < |history| ==> Compare(CursorFor(history[i]), Truncate(CursorFor(history[i - 1]))) > 0
  }

  /** The durable row and the signal table are the fold of a history of the strategy. */
  predicate Represents(db: Database, w: Worker, history: seq<Event>) {
    && Ascending(history)
    && FoldEvents(w, history).Some?
    && SignalsOf(db.signals, w.strategy) == FoldEvents(w, history).value.signals
    && if history == [] then w.strategy !in db.rows
       else
         w.strategy in db.rows &&
         db.rows[w.strategy] == Row(FoldEvents(w, history).value.state, Truncate(CursorFor(history[|history| - 1])),
             |history|)
  }

  lemma {:induction false} SignalsAppend(rows: seq<Signal>, s: Signal, strategy: Name)
    ensures SignalsOf(rows + [s], strategy) == SignalsOf(rows, strategy) + if s.strategy == strategy then [s] else []
  {
    assert (rows + [s])[..|rows|] == rows;
  }

  lemma {:induction false} InsertionAppends(rows: seq<Signal>, c: CommitRequest, signals: seq<Signal>)
    requires InsertSignals(rows, c, signals).Ok?
    ensures InsertSignals(rows, c, signals).value == rows + signals
    ensures forall i :: 0 <= i < |signals| ==> signals[i].strategy == c.strategy
  {
    hide Clashes;
    if signals == [] {
      assert rows + signals == rows;
    } else {
      InsertionAppends(rows, c, signals[..|signals| - 1]);
      assert rows + signals == rows + signals[..|signals| - 1] + [signals[|signals| - 1]];
    }
  }

  lemma {:induction false} SignalsOfOwner(rows: seq<Signal>, signals: seq<Signal>, owner: Name, strategy: Name)
    requires forall i :: 0 <= i < |signals| ==> signals[i].strategy == owner
    ensures strategy != owner ==> SignalsOf(rows + signals, strategy) == SignalsOf(rows, strategy)
    ensures strategy == owner ==> SignalsOf(rows + signals, strategy) == SignalsOf(rows, strategy) + signals
  {
    hide SignalsOf;
    if signals == [] {
      assert rows + signals == rows;
    } else {
      var init, last := signals[..|signals| - 1], signals[|signals| - 1];
      SignalsOfOwner(rows, init, owner, strategy);
      SignalsAppend(rows + init, last, strategy);
      Reassociate(rows, init, last);
      Reassociate(SignalsOf(rows, strategy), init, last);
      assert signals == init + [last];
    }
  }

  lemma Reassociate(a: seq<Signal>, b: seq<Signal>, last: Signal)
    ensures a + (b + [last]) == a + b + [last]
  {
  }

  lemma InsertedSignals(rows: seq<Signal>, c: CommitRequest, signals: seq<Signal>, strategy: Name)
    requires InsertSignals(rows, c, signals).Ok?
    ensures InsertSignals(rows, c, signals).value == rows + signals
    ensures SignalsOf(rows + signals, strategy) == SignalsOf(rows, strategy) + if strategy == c.strategy then signals
        else []
  {
    hide InsertSignals, SignalsOf;
    InsertionAppends(rows, c, signals);
    SignalsOfOwner(rows, signals, c.strategy, strategy);
  }

  /** An accepted delivery extends the history by its event; any other changes nothing. */
  lemma {:induction false} DeliverKeepsRepresents(db: Database, w: Worker, event: Event, history: seq<Event>)
    requires Represents(db, w, history)
    ensures var d := Deliver(db, w, event);
            if d.outcome.Emitted? then Represents(d.db, w, history + [event]) else d.db == db
  {
    hide React, InsertSignals, SignalsOf, Compare, Truncate, Usable;
    var d := Deliver(db, w, event);
    ReactionIsAnswer(w, CurrentState(db, w), event);
    if d.outcome.Emitted? {
      var cursor := CursorFor(event);
      var reaction := React(w, CurrentState(db, w), event).value;
      var c := CommitRequest(w.strategy, Revision(db, w.strategy), reaction.state, cursor,
          Stamp(w, cursor, reaction.drafts));
      InsertedSignals(db.signals, c, c.signals, w.strategy);
      assert (history + [event])[..|history|] == history;
      if w.strategy in db.rows {
        ComparisonsAgree(cursor, db.rows[w.strategy].cursor, cursor);
      }
    }
  }

  /** After any deliveries, duplicates, stale events and failures included, the durable
      state is the fold of the accepted events, its revision is their number, and the
      signal table holds exactly the signals of those steps, in order. */
  lemma {:induction false} RunsFoldAcceptedEvents(db: Database, w: Worker, events: seq<Event>)
    requires Represents(db, w, [])
    ensures Represents(After(db, w, events), w, Accepted(db, w, events))
  {
    hide Represents, Deliver;
    if events != [] {
      var init := events[..|events| - 1];
      RunsFoldAcceptedEvents(db, w, init);
      DeliverKeepsRepresents(After(db, w, init), w, events[|events| - 1], Accepted(db, w, init));
      assert Accepted(db, w, init) + [] == Accepted(db, w, init);
    }
  }

  // ---------------------------------------------------------------------------
  // What one delivery does, in terms of the strategy's answer
  // ---------------------------------------------------------------------------

  /** The event is the worker's own and comes after the row the worker would load. */
  predicate Awaited(db: Database, w: Worker, event: Event) {
    && event.account == w.account && event.instrument == w.instrument
    && (w.strategy in db.rows ==> CursorLess(db.rows[w.strategy].cursor, CursorFor(event)))
  }

  /** None of the signals an event calls for has an identifier or a place already taken. */
  predicate Insertable(rows: seq<Signal>, signals: seq<Signal>) {
    forall i, j :: 0 <= i < |rows| && 0 <= j < |signals| ==> !Clashes(rows[i], signals[j])
  }

  predicate Numbered(c: CommitRequest, signals: seq<Signal>) {
    forall i :: 0 <= i < |signals| ==>
      signals[i].strategy == c.strategy && signals[i].cursor == c.cursor && signals[i].ordinal == i
  }

  /** All signals are of this commit's strategy and event. */
  predicate Belong(c: CommitRequest, signals: seq<Signal>) {
    forall i :: 0 <= i < |signals| ==> signals[i].strategy == c.strategy && signals[i].cursor == c.cursor
  }

  predicate Apart(signals: seq<Signal>) {
    forall i, j :: 0 <= i < j < |signals| ==> !Clashes(signals[i], signals[j])
  }

  /** Signals are stored exactly when they belong to the commit and clash neither with stored
      ones nor among themselves. */
  lemma {:induction false} InsertionSucceeds(rows: seq<Signal>, c: CommitRequest, signals: seq<Signal>)
    ensures InsertSignals(rows, c, signals).Ok? <==>
              Belong(c, signals) && Insertable(rows, signals) && Apart(signals)
  {
    if signals != [] {
      hide Clashes;
      var n := |signals| - 1;
      var init, last := signals[..n], signals[n];
      InsertionSucceeds(rows, c, init);
      assert Insertable(rows, signals) <==>
             Insertable(rows, init) && forall i :: 0 <= i < |rows| ==> !Clashes(rows[i], last);
      assert Apart(signals) <==> Apart(init) && forall i :: 0 <= i < n ==> !Clashes(init[i], last);
      assert Belong(c, signals) <==> Belong(c, init) && last.strategy == c.strategy && last.cursor == c.cursor;
      if InsertSignals(rows, c, init).Ok? {
        InsertionAppends(rows, c, init);
        var before := rows + init;
        assert (exists i :: 0 <= i < |before| && Clashes(before[i], last)) <==>
               (exists i :: 0 <= i < |rows| && Clashes(rows[i], last)) ||
               (exists i :: 0 <= i < n && Clashes(init[i], last)) by {
          if i :| 0 <= i < |rows| && Clashes(rows[i], last) {
            assert before[i] == rows[i];
          }
          if i :| 0 <= i < n && Clashes(init[i], last) {
            assert before[|rows| + i] == init[i];
          }
        }
      }
    }
  }

  lemma NumberedAreApart(c: CommitRequest, signals: seq<Signal>)
    requires Numbered(c, signals)
    ensures Belong(c, signals) && Apart(signals)
  {
    hide Clashes;
    forall i, j | 0 <= i < j < |signals| ensures !Clashes(signals[i], signals[j]) {
      OrdinalsDiffer(signals[i], signals[j]);
    }
  }

  /** A commit takes effect exactly when the row is at the expected revision, or absent where
      none is expected, its event is not before the row's, and its signals can be stored; it
      then writes its state, cursor and signals and the next revision. A commit of the state and
      cursor the row has already got succeeds without effect, and any other is refused. */
  lemma CommitAccepted(db: Database, c: CommitRequest)
    ensures var stale := c.strategy in db.rows && db.rows[c.strategy].revision != c.expected;
            var storable := Belong(c, c.signals) && Insertable(db.signals, c.signals) && Apart(c.signals);
            if stale then
              if db.rows[c.strategy].cursor == Truncate(c.cursor) && db.rows[c.strategy].state == c.state
              then Commit(db, c) == Ok(db) else Commit(db, c) == Err(VersionConflict)
            else
              && (Commit(db, c).Ok? <==>
                    && storable
                    && (c.strategy in db.rows ==> !CursorLess(c.cursor, db.rows[c.strategy].cursor))
                    && (c.strategy !in db.rows ==> c.expected == 0))
              && (Commit(db, c).Ok? ==>
                    && Commit(db, c).value.signals == db.signals + c.signals
                    && Commit(db, c).value.rows ==
                       db.rows[c.strategy := Row(c.state, Truncate(c.cursor), c.expected + 1)])
  {
    hide InsertSignals, Truncate, Clashes, Insertable, Apart, Belong, CursorLess;
    InsertionSucceeds(db.signals, c, c.signals);
    if InsertSignals(db.signals, c, c.signals).Ok? {
      InsertionAppends(db.signals, c, c.signals);
    }
  }

  lemma OrdinalsDiffer(a: Signal, b: Signal)
    requires a.ordinal != b.ordinal
    ensures !Clashes(a, b)
  {
  }

  /** An event is folded in exactly when it is awaited, the strategy's answer is usable and its
      signals find their places free. Then the row holds the answered state, the signals of
      the answer, in order and none besides, are returned and stored, and no other row changes. */
  lemma DeliveryFollowsAnswer(db: Database, w: Worker, event: Event)
    ensures var d, state, cursor := Deliver(db, w, event), CurrentState(db, w), CursorFor(event);
            && (d.outcome.Emitted? <==>
                  && Awaited(db, w, event) && Usable(w, state, event)
                  && Insertable(db.signals, Stamp(w, cursor, w.onEvent(state, event).value.drafts)))
            && (d.outcome.Emitted? ==>
                  var r, signals := w.onEvent(state, event).value, d.outcome.signals;
                  && |signals| == |r.drafts|
                  && (forall i :: 0 <= i < |signals| ==> signals[i] == Signal(w.strategy, cursor, i, r.drafts[i]))
                  && d.db.signals == db.signals + signals
                  && d.db.rows == db.rows[w.strategy := Row(r.state, Truncate(cursor), Revision(db, w.strategy) + 1)])
            && (!d.outcome.Emitted? ==> d.db == db)
  {
    hide React, InsertSignals, Truncate, Usable, Clashes, Insertable, Apart;
    var state, cursor := CurrentState(db, w), CursorFor(event);
    ReactionIsAnswer(w, state, event);
    if w.strategy in db.rows {
      ComparisonsAgree(db.rows[w.strategy].cursor, cursor, cursor);
    }
    if Prepare(db, w, event).Ok? {
      var c := Prepare(db, w, event).value;
      NumberedAreApart(c, c.signals);
      InsertionSucceeds(db.signals, c, c.signals);
      if InsertSignals(db.signals, c, c.signals).Ok? {
        InsertionAppends(db.signals, c, c.signals);
      }
    }
  }

  /** Why an event is not folded in. */
  lemma RefusalsAreExplained(db: Database, w: Worker, event: Event)
    ensures var d, state, cursor := Deliver(db, w, event), CurrentState(db, w), CursorFor(event);
            var mine := event.account == w.account && event.instrument == w.instrument;
            var answer := w.onEvent(state, event);
            && (d.outcome == Refused(WrongWorker) <==> !mine)
            && (d.outcome == Ignored <==> mine && w.strategy in db.rows && db.rows[w.strategy].cursor == cursor)
            && (d.outcome == Refused(OutOfOrder) <==>
                  mine && w.strategy in db.rows && CursorLess(cursor, db.rows[w.strategy].cursor))
            && (d.outcome == Refused(StrategyError) <==> Awaited(db, w, event) && answer.None?)
            && (d.outcome == Refused(TooManySignals) <==>
                  Awaited(db, w, event) && answer.Some? && |answer.value.drafts| > MAX_SIGNALS)
            && (d.outcome == Refused(InvalidDraft) <==>
                  && Awaited(db, w, event) && answer.Some? && |answer.value.drafts| <= MAX_SIGNALS
                  && exists i :: 0 <= i < |answer.value.drafts| && !answer.value.drafts[i].valid)
            && (d.outcome == Refused(SignalConflict) <==>
                  && Awaited(db, w, event) && Usable(w, state, event)
                  && !Insertable(db.signals, Stamp(w, cursor, answer.value.drafts)))
  {
    hide InsertSignals, Truncate, Clashes, Insertable, Apart;
    var cursor := CursorFor(event);
    if w.strategy in db.rows {
      ComparisonsAgree(db.rows[w.strategy].cursor, cursor, cursor);
      ComparisonsAgree(cursor, db.rows[w.strategy].cursor, cursor);
    }
    if Prepare(db, w, event).Ok? {
      var c := Prepare(db, w, event).value;
      NumberedAreApart(c, c.signals);
      InsertionSucceeds(db.signals, c, c.signals);
      OnlyConflicts(db.signals, c, c.signals);
    }
  }

  lemma {:induction false} OnlyConflicts(rows: seq<Signal>, c: CommitRequest, signals: seq<Signal>)
    requires Numbered(c, signals)
    ensures InsertSignals(rows, c, signals).Err? ==> InsertSignals(rows, c, signals) == Err(SignalConflict)
  {
    hide Clashes;
    if signals != [] {
      OnlyConflicts(rows, c, signals[..|signals| - 1]);
    }
  }

  // ---------------------------------------------------------------------------
  // Duplicates and precision
  // ---------------------------------------------------------------------------

  predicate AllAligned(events: seq<Event>) {
    forall i :: 0 <= i < |events| ==> AlignedTime(events[i].time)
  }

  lemma {:induction false} AcceptedAreDelivered(db: Database, w: Worker, events: seq<Event>)
    ensures forall e :: e in Accepted(db, w, events) ==> e in events
  {
    hide Deliver;
    if events != [] {
      AcceptedAreDelivered(db, w, events[..|events| - 1]);
      assert events == events[..|events| - 1] + [events[|events| - 1]];
    }
  }

  /** With whole microseconds a history is strictly increasing, so no event is in it twice. */
  lemma {:induction false} AlignedHistoryIncreases(history: seq<Event>, i: nat, j: nat)
    requires Ascending(history) && AllAligned(history) && i < j < |history|
    ensures Compare(CursorFor(history[i]), CursorFor(history[j])) < 0
  {
    assert Truncate(CursorFor(history[j - 1])) == CursorFor(history[j - 1]);
    if i < j - 1 {
      AlignedHistoryIncreases(history, i, j - 1);
    }
  }

  /** Delivering any event of an aligned history again changes nothing. */
  lemma RedeliveryIsHarmless(db: Database, w: Worker, history: seq<Event>, i: nat)
    requires Represents(db, w, history) && AllAligned(history) && i < |history|
    ensures Deliver(db, w, history[i]).db == db
    ensures history[i].account == w.account && history[i].instrument == w.instrument && i == |history| - 1 ==>
              Deliver(db, w, history[i]).outcome == Ignored
  {
    hide FoldEvents, React, SignalsOf;
    var last := |history| - 1;
    assert Truncate(CursorFor(history[last])) == CursorFor(history[last]);
    if i < last {
      AlignedHistoryIncreases(history, i, last);
    }
  }

  /** After any run of whole-microsecond deliveries, delivering an accepted event once more
      changes nothing. */
  lemma DuplicatesAreHarmless(db: Database, w: Worker, events: seq<Event>, event: Event)
    requires Represents(db, w, []) && AllAligned(events) && event in Accepted(db, w, events)
    ensures Deliver(After(db, w, events), w, event).db == After(db, w, events)
  {
    hide Represents, Deliver, After, Accepted;
    var history := Accepted(db, w, events);
    RunsFoldAcceptedEvents(db, w, events);
    AcceptedAreDelivered(db, w, events);
    assert forall i :: 0 <= i < |history| ==> history[i] in history;
    var i :| 0 <= i < |history| && history[i] == event;
    RedeliveryIsHarmless(After(db, w, events), w, history, i);
  }

  /** A worker that counts the events it is given. */
  function Counter(strategy: Name, account: Name, instrument: Name): Worker {
    Worker(strategy, account, instrument, "", (state: State, event: Event) => Some(Reaction(state + "I", [])))
  }

  /** Stored cursors lose what is below a microsecond, so the store recognizes a repeated
      event exactly when its time is a whole number of microseconds: otherwise a worker
      that emits no signal folds it in a second time. */
  lemma DuplicatesNeedWholeMicroseconds(strategy: Name, event: Event)
    ensures var w := Counter(strategy, event.account, event.instrument);
            var once := Deliver(Database(map[], []), w, event).db;
            Deliver(once, w, event).db == once <==> AlignedTime(event.time)
  {
    var w := Counter(strategy, event.account, event.instrument);
    var cursor := CursorFor(event);
    var once := Deliver(Database(map[], []), w, event).db;
    assert forall state: State :: React(w, state, event) == Ok(Reaction(state + "I", []));
    assert Stamp(w, cursor, []) == [] && "" + "I" == "I";
    assert React(w, "", event) == Ok(Reaction("I", []));
    assert once.rows == map[strategy := Row("I", Truncate(cursor), 1)] && once.signals == [];
    assert Compare(cursor, Truncate(cursor)) == 0 <==> AlignedTime(event.time);
    assert Compare(cursor, Truncate(cursor)) >= 0;
  }

  /** Two events delivered one after the other are counted twice; a counter that prepares
      both before it commits either asks for a count of one each time. */
  lemma CountersDiffer(strategy: Name, first: Event, second: Event)
    requires first.account == second.account && first.instrument == second.instrument
    requires CursorLess(CursorFor(first), CursorFor(second))
    ensures var w, db := Counter(strategy, first.account, first.instrument), Database(map[], []);
            && CurrentState(After(db, w, [first, second]), w) == "II"
            && Prepare(db, w, first) == Ok(CommitRequest(strategy, 0, "I", CursorFor(first), []))
            && Prepare(db, w, second) == Ok(CommitRequest(strategy, 0, "I", CursorFor(second), []))
  {
    var w, db := Counter(strategy, first.account, first.instrument), Database(map[], []);
    assert forall state: State :: React(w, state, first) == Ok(Reaction(state + "I", []));
    assert forall state: State :: React(w, state, second) == Ok(Reaction(state + "I", []));
    assert "" + "I" == "I" && "I" + "I" == "II";
    assert Stamp(w, CursorFor(first), []) == [] && Stamp(w, CursorFor(second), []) == [];
    assert [first, second][..1] == [first] && [first][..0] == [];
    assert After(db, w, [first]) == Deliver(db, w, first).db;
    assert React(w, "I", second) == Ok(Reaction("II", []));
    assert Deliver(db, w, first).db.rows[strategy] == Row("I", Truncate(CursorFor(first)), 1);
  }

  // ---------------------------------------------------------------------------
  // Several writers of one row
  // ---------------------------------------------------------------------------

  /** Commits of any writers, one after another; a refused one changes nothing. */
  function Commits(db: Database, cs: seq<CommitRequest>): Database {
    if cs == [] then db
    else
      var before := Commits(db, cs[..|cs| - 1]);
      var last := Commit(before, cs[|cs| - 1]);
      if last.Ok? then last.value else before
  }

  function RowOf(db: Database, strategy: Name): Option<Row> {
    if strategy in db.rows then Some(db.rows[strategy]) else None
  }

  /** A later database: revisions only grow, and a row at the same revision is the same row. */
  predicate Later(before: Database, after: Database) {
    forall s :: s in before.rows ==>
      s in after.rows && before.rows[s].revision <= after.rows[s].revision &&
      (before.rows[s].revision == after.rows[s].revision ==> after.rows[s] == before.rows[s])
  }

  predicate PositiveRevisions(db: Database) {
    forall s :: s in db.rows ==> db.rows[s].revision >= 1
  }

  lemma CommitIsLater(db: Database, c: CommitRequest)
    requires Commit(db, c).Ok?
    ensures Later(db, Commit(db, c).value)
    ensures PositiveRevisions(db) ==> PositiveRevisions(Commit(db, c).value)
  {
    hide InsertSignals;
  }

  lemma {:induction false} CommitsAreLater(db: Database, cs: seq<CommitRequest>)
    ensures Later(db, Commits(db, cs))
    ensures PositiveRevisions(db) ==> PositiveRevisions(Commits(db, cs))
  {
    hide Commit;
    if cs != [] {
      CommitsAreLater(db, cs[..|cs| - 1]);
      var before := Commits(db, cs[..|cs| - 1]);
      if Commit(before, cs[|cs| - 1]).Ok? {
        CommitIsLater(before, cs[|cs| - 1]);
      }
    }
  }

  /** Committing what was just committed once more succeeds and changes nothing. */
  lemma RetriedCommit(db: Database, c: CommitRequest)
    requires Commit(db, c).Ok?
    ensures Commit(Commit(db, c).value, c) == Ok(Commit(db, c).value)
  {
    hide InsertSignals;
  }

  /** No two stored signals share a strategy, a stored cursor and an ordinal. */
  predicate DistinctSignals(rows: seq<Signal>) {
    forall i, j :: 0 <= i < j < |rows| ==>
      rows[i].strategy != rows[j].strategy || Truncate(rows[i].cursor) != Truncate(rows[j].cursor) ||
      rows[i].ordinal != rows[j].ordinal
  }

  lemma {:induction false} InsertionKeepsDistinct(rows: seq<Signal>, c: CommitRequest, signals: seq<Signal>)
    requires DistinctSignals(rows) && InsertSignals(rows, c, signals).Ok?
    ensures DistinctSignals(InsertSignals(rows, c, signals).value)
    ensures forall i :: 0 <= i < |signals| ==> signals[i].strategy == c.strategy && signals[i].cursor == c.cursor
  {
    if signals != [] {
      hide Truncate;
      InsertionKeepsDistinct(rows, c, signals[..|signals| - 1]);
    }
  }

  /** After any commits every stored signal has its own place, and each commit that took effect
      stored only signals of its own strategy and event. */
  lemma {:induction false} SignalsStayDistinct(cs: seq<CommitRequest>)
    ensures DistinctSignals(Commits(Database(map[], []), cs).signals)
  {
    if cs != [] {
      hide InsertSignals, DistinctSignals;
      var before := Commits(Database(map[], []), cs[..|cs| - 1]);
      var c := cs[|cs| - 1];
      SignalsStayDistinct(cs[..|cs| - 1]);
      if InsertSignals(before.signals, c, c.signals).Ok? {
        InsertionKeepsDistinct(before.signals, c, c.signals);
      }
    }
  }

  /** A writer that loaded the database at one moment commits at a later one, with any commits
      of any writers before, and any in between. A commit that takes effect overwrites the
      very row it had loaded exactly when it carries the revision it had loaded. */
  lemma RevisionsPreventLostUpdates(earlier: seq<CommitRequest>, between: seq<CommitRequest>, c: CommitRequest)
    ensures var loaded := Commits(Database(map[], []), earlier);
            var current := Commits(loaded, between);
            Commit(current, c).Ok? && Commit(current, c).value != current ==>
              (RowOf(current, c.strategy) == RowOf(loaded, c.strategy) <==>
               c.expected == Revision(loaded, c.strategy))
  {
    hide InsertSignals, Commits;
    var loaded := Commits(Database(map[], []), earlier);
    CommitsAreLater(Database(map[], []), earlier);
    CommitsAreLater(loaded, between);
  }

  /** Of two commits prepared from one database, the second passes after the first only under
      the revision the first has left: with the revision it loaded it has no effect, with the
      next one it replaces the first commit's row, unless its signals clash. */
  lemma SecondCommit(db: Database, a: CommitRequest, b: CommitRequest)
    requires a.strategy == b.strategy && Commit(db, a).Ok? && CursorLess(a.cursor, b.cursor)
    requires a.expected == b.expected == Revision(db, a.strategy)
    ensures var one := Commit(db, a).value;
            && RowOf(one, a.strategy) == Some(Row(a.state, Truncate(a.cursor), a.expected + 1))
            && (Commit(one, b).Ok? ==> Commit(one, b).value == one)
            && var two := Commit(one, b.(expected := a.expected + 1));
               && (two.Ok? <==> InsertSignals(one.signals, b, b.signals).Ok?)
               && (two.Ok? ==>
                     RowOf(two.value, b.strategy) == Some(Row(b.state, Truncate(b.cursor), a.expected + 2)))
  {
    var later := b.(expected := a.expected + 1);
    SameInsertions(Commit(db, a).value.signals, b, later, b.signals);
    hide InsertSignals;
  }

  lemma {:induction false} SameInsertions(rows: seq<Signal>, a: CommitRequest, b: CommitRequest, signals: seq<Signal>)
    requires a.strategy == b.strategy && a.cursor == b.cursor
    ensures InsertSignals(rows, a, signals) == InsertSignals(rows, b, signals)
  {
    if signals != [] {
      SameInsertions(rows, a, b, signals[..|signals| - 1]);
    }
  }
}
