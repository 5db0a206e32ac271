/** The strategy worker, its state port and the event store as objects. The port keeps the
    revision of its last load in memory; what a worker does to the database does not depend
    on what that memory held before, so a restart is invisible. */
module StrategyWorkers {
  import opened Decimals
  import opened StrategyEvents

  class EventStore {
    var db: Database

    constructor (db: Database)
      ensures this.db == db
    {
      this.db := db;
    }

    /** One transaction; an error leaves the database as it was. */
    method CommitEvent(c: CommitRequest) returns (r: Result<(), Error>)
      modifies this
      ensures match Commit(old(db), c)
              case Ok(next) => r == Ok(()) && db == next
              case Err(e) => r == Err(e) && db == old(db)
    {
      hide Clashes;
      var rows := db.rows;
      if c.strategy in rows {
        var current := rows[c.strategy];
        var sameCursor := current.cursor == Truncate(c.cursor);
        if current.revision != c.expected {
          if sameCursor && current.state == c.state {
            return Ok(());
          }
          return Err(VersionConflict);
        }
        if CursorLess(c.cursor, current.cursor) {
          return Err(CursorRegressed);
        }
        rows := rows[c.strategy := Row(c.state, Truncate(c.cursor), current.revision + 1)];
      } else {
        if c.expected != 0 {
          return Err(VersionConflict);
        }
        rows := rows[c.strategy := Row(c.state, Truncate(c.cursor), 1)];
      }
      var signals := db.signals;
      for i := 0 to |c.signals|
        invariant InsertSignals(db.signals, c, c.signals[..i]) == Ok(signals)
        invariant db == old(db)
      {
        assert c.signals[..i + 1][..i] == c.signals[..i];
        var signal := c.signals[i];
        if signal.strategy != c.strategy || signal.cursor != c.cursor {
          InsertionStops(db.signals, c, c.signals, i + 1);
          return Err(ForeignSignal);
        }
        if exists j :: 0 <= j < |signals| && Clashes(signals[j], signal) {
          InsertionStops(db.signals, c, c.signals, i + 1);
          return Err(SignalConflict);
        }
        signals := signals + [signal];
      }
      assert c.signals[..|c.signals|] == c.signals;
      db := Database(rows, signals);
      r := Ok(());
    }
  }

  lemma {:induction false} InsertionStops(rows: seq<Signal>, c: CommitRequest, signals: seq<Signal>, n: nat)
    requires n <= |signals| && InsertSignals(rows, c, signals[..n]).Err?
    ensures InsertSignals(rows, c, signals) == InsertSignals(rows, c, signals[..n])
  {
    hide Clashes;
    if n == |signals| {
      assert signals[..n] == signals;
    } else {
      assert signals[..|signals| - 1][..n] == signals[..n];
      InsertionStops(rows, c, signals[..|signals| - 1], n);
    }
  }

  class DurableStatePort {
    const store: EventStore
    var revisions: map<Name, nat>

    constructor (store: EventStore)
      ensures this.store == store && revisions == map[]
    {
      this.store, revisions := store, map[];
    }

    /** The durable row, and its revision remembered for the next commit. */
    method Load(strategy: Name) returns (row: Option<Row>)
      modifies this
      ensures row == if strategy in store.db.rows then Some(store.db.rows[strategy]) else None
      ensures revisions == old(revisions)[strategy := Revision(store.db, strategy)]
    {
      if strategy in store.db.rows {
        row := Some(store.db.rows[strategy]);
        revisions := revisions[strategy := store.db.rows[strategy].revision];
      } else {
        row := None;
        revisions := revisions[strategy := 0];
      }
    }

    method CommitState(strategy: Name, state: State, cursor: Cursor, signals: seq<Signal>) returns (r: Result<(),
        Error>)
      modifies this, store
      ensures var revision := if strategy in old(revisions) then old(revisions)[strategy] else 0;
              match Commit(old(store.db), CommitRequest(strategy, revision, state, cursor, signals))
              case Ok(next) => r == Ok(()) && store.db == next && revisions == old(revisions)[strategy := revision + 1]
              case Err(e) => r == Err(e) && store.db == old(store.db) && revisions == old(revisions)
    {
      hide InsertSignals;
      var revision := if strategy in revisions then revisions[strategy] else 0;
      r := store.CommitEvent(CommitRequest(strategy, revision, state, cursor, signals));
      if r.Err? {
        return;
      }
      revisions := revisions[strategy := revision + 1];
    }
  }

  class EventWorker {
    const worker: Worker
    const port: DurableStatePort

    constructor (worker: Worker, port: DurableStatePort)
      ensures this.worker == worker && this.port == port
    {
      this.worker, this.port := worker, port;
    }

    /** The first half of a delivery: loads the row and reacts to the event. */
    method Begin(event: Event) returns (r: Result<CommitRequest, Outcome>)
      modifies port
      ensures r == Prepare(port.store.db, worker, event)
      ensures r.Ok? ==>
                port.revisions == old(port.revisions)[worker.strategy := Revision(port.store.db, worker.strategy)]
    {
      hide Compare, Truncate;
      if event.account != worker.account || event.instrument != worker.instrument {
        return Err(Refused(WrongWorker));
      }
      var cursor := CursorFor(event);
      var row := port.Load(worker.strategy);
      if row.Some? {
        var comparison := Compare(cursor, row.value.cursor);
        if comparison == 0 {
          return Err(Ignored);
        }
        if comparison < 0 {
          return Err(Refused(OutOfOrder));
        }
      }
      var current := if row.Some? then row.value.state else worker.initial;
      var reaction := worker.onEvent(current, event);
      if reaction.None? {
        return Err(Refused(StrategyError));
      }
      var drafts := reaction.value.drafts;
      if |drafts| > MAX_SIGNALS {
        return Err(Refused(TooManySignals));
      }
      var signals: seq<Signal> := [];
      for i := 0 to |drafts|
        invariant |signals| == i
        invariant forall j :: 0 <= j < i ==>
            drafts[j].valid && signals[j] == Signal(worker.strategy, cursor, j, drafts[j])
      {
        if !drafts[i].valid {
          return Err(Refused(InvalidDraft));
        }
        signals := signals + [Signal(worker.strategy, cursor, i, drafts[i])];
      }
      assert signals == Stamp(worker, cursor, drafts);
      r := Ok(CommitRequest(worker.strategy, port.revisions[worker.strategy], reaction.value.state, cursor, signals));
    }

    /** The second half: commits under whatever revision the port remembers by then. */
    method Finish(c: CommitRequest) returns (outcome: Outcome)
      requires c.strategy == worker.strategy
      modifies port, port.store
      ensures var revision := if c.strategy in old(port.revisions) then old(port.revisions)[c.strategy] else 0;
              match Commit(old(port.store.db), c.(expected := revision))
              case Ok(next) =>
                outcome == Emitted(c.signals) && port.store.db == next &&
                port.revisions == old(port.revisions)[c.strategy := revision + 1]
              case Err(e) =>
                outcome == Refused(e) && port.store.db == old(port.store.db) && port.revisions == old(port.revisions)
    {
      hide Commit;
      var committed := port.CommitState(worker.strategy, c.state, c.cursor, c.signals);
      outcome := if committed.Ok? then Emitted(c.signals) else Refused(committed.error);
    }

    /** Folds one event into the durable state, whatever revision the port remembered. */
    method Process(event: Event) returns (outcome: Outcome)
      modifies port, port.store
      ensures Delivery(port.store.db, outcome) == Deliver(old(port.store.db), worker, event)
    {
      hide Compare, Truncate, Commit, React, Stamp;
      var prepared := Begin(event);
      if prepared.Err? {
        return prepared.error;
      }
      outcome := Finish(prepared.value);
    }
  }

  /** Two workers of one strategy overlap: both load before either commits. The later event
      replaces what the earlier one made of the state, as if it had never been delivered,
      exactly when the workers share a port; with a port each, only the first commit counts. */
  method Overlap(a: EventWorker, b: EventWorker, first: Event, second: Event) returns (one: Outcome, two: Outcome)
    requires a.worker == b.worker && a.port.store == b.port.store
    requires Prepare(a.port.store.db, a.worker, first).Ok? && Prepare(a.port.store.db, a.worker, second).Ok?
    requires CursorLess(CursorFor(first), CursorFor(second))
    modifies a.port, b.port, a.port.store
    ensures var x := Prepare(old(a.port.store.db), a.worker, first).value;
            one == Emitted(x.signals) <==> Commit(old(a.port.store.db), x).Ok?
    ensures var loaded, strategy := old(a.port.store.db), a.worker.strategy;
            var x, y := Prepare(loaded, a.worker, first).value, Prepare(loaded, a.worker, second).value;
            Commit(loaded, x).Ok? ==>
              var kept := Commit(loaded, x).value;
              if a.port == b.port && InsertSignals(kept.signals, y, y.signals).Ok? then
                && two == Emitted(y.signals)
                && RowOf(a.port.store.db, strategy) ==
                   Some(Row(y.state, Truncate(y.cursor), Revision(loaded, strategy) + 2))
              else a.port.store.db == kept
  {
    hide Compare, Truncate, Commit, React, Stamp, InsertSignals;
    ghost var loaded := a.port.store.db;
    var x := a.Begin(first);
    var y := b.Begin(second);
    one := a.Finish(x.value);
    if Commit(loaded, x.value).Ok? {
      SecondCommit(loaded, x.value, y.value);
    }
    assert y.value.(expected := Revision(loaded, a.worker.strategy)) == y.value;
    two := b.Finish(y.value);
  }

  /** A whole life of a worker: at any point it may be stopped and started again with an
      empty port, and the database is still the fold of the accepted events. */
  method RunWithRestarts(store: EventStore, w: Worker, events: seq<Event>, restart: nat -> bool)
    requires Represents(store.db, w, [])
    modifies store
    ensures store.db == After(old(store.db), w, events)
    ensures Represents(store.db, w, Accepted(old(store.db), w, events))
  {
    hide Deliver, Represents;
    var port := new DurableStatePort(store);
    var worker := new EventWorker(w, port);
    for i := 0 to |events|
      invariant worker.worker == w && worker.port.store == store && fresh(worker.port)
      invariant store.db == After(old(store.db), w, events[..i])
    {
      assert events[..i + 1][..i] == events[..i];
      if restart(i) {
        port := new DurableStatePort(store);
        worker := new EventWorker(w, port);
      }
      var outcome := worker.Process(events[i]);
    }
    assert events[..|events|] == events;
    RunsFoldAcceptedEvents(old(store.db), w, events);
  }
}
