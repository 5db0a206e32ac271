/** What the ledger promises about positions, profit and commissions, whatever the order in
    which fills and observations arrived. */
module LedgerTheorems {
  import opened Decimals
  import opened Accounting
  import opened Ledger
  import opened LedgerLemmas
  import opened LedgerInvariant
  import opened LedgerRuns

  // ---------------------------------------------------------------------------
  // Positions and profit
  // ---------------------------------------------------------------------------

  function HeldQuantity(t: Tables, h: Holding): real {
    if h in t.positions then t.positions[h].position.quantity else 0.0
  }

  /** In every sound state a holding is what its recorded fills bought less what they sold,
      it is never short, and its realized profit events plus the gain of what is held follow
      the cash of those fills within the rounding of the averages. */
  lemma HoldingFollowsFills(t: Tables, h: Holding, mark: real)
    requires Sound(t)
    ensures var fills := FillsFor(t.executions, h);
            && AllValid(fills)
            && HeldQuantity(t, h) == NetQuantity(fills) >= 0.0
            && var average := if h in t.positions then t.positions[h].position.average else 0.0;
               var profit := RealizedFor(t.orders, t.profits, h) + Spread(average, mark, HeldQuantity(t, h));
               && Abs(profit - CashWorth(fills, mark)) <= RoundingBound(fills)
               && (ExactAverages(FLAT, fills) ==> profit == CashWorth(fills, mark))
  {
    hide Recordings, Filled, Watermarks, Balanced, Events, FoldFills, NetQuantity, CashFlow, AveragedVolume,
         ExactAverages, Spread, FillsFor, RealizedFor, AllValid, StagedValid, Find;
    var fills := FillsFor(t.executions, h);
    FillsAreValid(t.executions, h);
    assert Folded(t, h);
    ProjectionAgreesWithReducer(fills);
    QuantityIsNet(FLAT, fills);
    MarkedProfit(fills, mark);
    var books := FoldFills(FLAT, fills);
    EmptySpread(books.position, mark);
    EmptySpread(Position(0.0, if h in t.positions then t.positions[h].position.average else 0.0), mark);
  }

  /** After any run the fills of an order add up to no more than its fill level, which has not
      fallen and does not exceed the quantity requested. */
  lemma FillLevelsHold(t: Tables, ops: seq<Op>, order: Name)
    requires Sound(t) && order in t.orders
    ensures var t' := After(t, ops);
            && order in t'.orders && t'.orders[order].requested == t.orders[order].requested
            && FillSum(t'.executions, order) <= t'.orders[order].filled <= t.orders[order].requested
            && t.orders[order].filled <= t'.orders[order].filled
            && FillSum(t.executions, order) <= t'.orders[order].filled
  {
    hide Keyed, Positions, Watermarks, Balanced, Events, After, FillSum, Rises, SameEntry;
    RunsExtend(t, ops);
    assert SameOrder(t.orders[order], After(t, ops).orders[order]);
  }

  /** After any run every daily row adds up, and over all days realized profit, commissions and
      closed trades are what the profit events of the strategy and asset add up to. */
  lemma StatisticsBalance(t: Tables, ops: seq<Op>, strategy: Name, asset: Name, m: Measure)
    requires Sound(t)
    ensures var t' := After(t, ops);
            && Totalled(t'.daily) && OneRowADay(t'.daily)
            && DaysTotal(t'.daily, strategy, asset, m) == EventsTotal(t'.profits, strategy, asset, m)
  {
    hide Keyed, Filled, Positions, Watermarks, Events, After, DaysTotal, EventsTotal, Totalled, OneRowADay;
  }

  // ---------------------------------------------------------------------------
  // Commissions in any order of arrival
  // ---------------------------------------------------------------------------

  /** The highest cumulative commission of an order among the observations a run accepted. */
  ghost function Observed(t: Tables, ops: seq<Op>, order: Name): (r: real)
    requires Sound(t)
    ensures r >= 0.0
  {
    if ops == [] then 0.0
    else
      var init, op := ops[..|ops| - 1], ops[|ops| - 1];
      if op.ObserveOp? && op.order == order && Do(After(t, init), op).Ok? then Max(Observed(t, init, order), op.amount)
      else Observed(t, init, order)
  }

  /** A level is raised by an accepted observation of the order or by its stored commissions. */
  lemma StepLevel(t: Tables, op: Op, order: Name)
    requires Sound(t)
    ensures Stored(t.executions, order) <= Stored(Step(t, op).executions, order)
    ensures var observed := if op.ObserveOp? && op.order == order && Do(t, op).Ok? then op.amount else 0.0;
            Level(Step(t, op), order) == Max(Level(t, order), Max(Stored(Step(t, op).executions, order), observed))
  {
    hide Recordings, Filled, Positions, Balanced, Events, Stage, Apply, Observe, Find, Stored, ApplyLong, HasId,
         FillSum, Charged;
    StoredIsNonNegative(t.executions, order);
    LevelCoversStored(t, order);
    if Do(t, op).Ok? {
      match op
      case StageOp(e, receivedAt, day) => StageKeepsSound(t, e, receivedAt, day);
      case ObserveOp(o, amount, asset, observedAt, day) => ObserveRaises(t, o, amount, asset, observedAt, day);
      case PlaceOp(_, _) =>
      case ApplyOp(key) =>
        SoundIsLong(t);
        SoundIsStaged(t);
        ApplyKeepsSound(t, key);
        if Find(t.executions, key).None? {
          var entry := t.inbox[key];
          Append(t.executions, Recorded(key, entry.execution, entry.receivedAt), order, entry.execution.Held(), key);
        }
    }
  }

  lemma LevelCoversStored(t: Tables, order: Name)
    requires Watermarks(t)
    ensures Level(t, order) >= Stored(t.executions, order)
  {
  }

  /** After any run an order's level is the largest of its initial level, the commissions
      stored with its fills and every accepted observation; what was charged is the rise. */
  lemma {:induction false} LevelIsLargest(t: Tables, ops: seq<Op>, order: Name)
    requires Sound(t)
    ensures var t' := After(t, ops);
            && Level(t', order) == Max(Level(t, order), Max(Stored(t'.executions, order), Observed(t, ops, order)))
            && Charged(t'.profits, order) - Charged(t.profits, order) == Level(t', order) - Level(t, order)
  {
    hide Sound, Do, Step, Charged, Stored, Level;
    RunsExtend(t, ops);
    assert Rises(t, After(t, ops), order);
    if ops == [] {
      BareLevel(t, order);
    } else {
      LevelIsLargest(t, ops[..|ops| - 1], order);
      StepLevel(After(t, ops[..|ops| - 1]), ops[|ops| - 1], order);
    }
  }

  lemma BareLevel(t: Tables, order: Name)
    requires Sound(t)
    ensures Level(t, order) >= Stored(t.executions, order) >= 0.0
  {
    hide Recordings, Filled, Positions, Balanced, Events, Stored, StagedValid;
    StoredIsNonNegative(t.executions, order);
  }

  /** An observation of a known order is accepted exactly when it does not fall below the
      level the order has reached and its asset agrees with what is already there. */
  lemma ObservationAccepted(t: Tables, order: Name, amount: real, asset: Name, observedAt: int, day: Name)
    requires Sound(t) && order in t.orders && amount >= 0.0
    ensures Observe(t, order, amount, asset, observedAt, day).Ok? <==>
              amount >= Level(t, order) &&
              if order in t.commissions then t.commissions[order].asset == asset
              else
                var stored := PersistedCommission(t.executions, order);
                stored.Ok? && (stored.value.asset.None? || stored.value.asset == Some(asset))
  {
    hide Recordings, Filled, Positions, Balanced, Find, Stored, PersistedCommission, Upsert, DayOf, StagedValid,
         HasEvent;
    if order !in t.commissions && PersistedCommission(t.executions, order).Ok? {
      StoredIsPersisted(t.executions, order);
    }
    if amount > Level(t, order) {
      ObservationIsNew(t, order, asset, amount);
    }
  }

  lemma ObservationIsNew(t: Tables, order: Name, asset: Name, amount: real)
    requires Events(t) && amount > Level(t, order)
    ensures !HasEvent(t.profits, OfOrder(order, asset, amount))
  {
    assert !Sourced(t, OfOrder(order, asset, amount));
  }

  /** Every transaction of the run succeeds. */
  ghost predicate AllAccepted(t: Tables, ops: seq<Op>)
    requires Sound(t)
  {
    forall n :: 0 <= n < |ops| ==> Do(After(t, ops[..n]), ops[n]).Ok?
  }

  /** Reports of a fill under one key agree, commission included. */
  predicate Unambiguous(ops: seq<Op>) {
    forall a, b :: a in ops && b in ops && a.StageOp? && b.StageOp? && a.execution.Key() == b.execution.Key() ==>
      a.execution == b.execution
  }

  lemma AcceptedPrefix(t: Tables, ops: seq<Op>)
    requires Sound(t) && AllAccepted(t, ops) && ops != []
    ensures AllAccepted(t, ops[..|ops| - 1]) && Do(After(t, ops[..|ops| - 1]), ops[|ops| - 1]).Ok?
  {
    hide Sound, Do, After;
    var init := ops[..|ops| - 1];
    forall n | 0 <= n < |init| ensures Do(After(t, init[..n]), init[n]).Ok? {
      assert init[..n] == ops[..n];
    }
  }

  predicate Observes(op: Op, order: Name) {
    op.ObserveOp? && op.order == order
  }

  lemma ObservedStep(t: Tables, ops: seq<Op>, order: Name)
    requires Sound(t) && AllAccepted(t, ops) && ops != []
    ensures AllAccepted(t, ops[..|ops| - 1])
    ensures var before, op := Observed(t, ops[..|ops| - 1], order), ops[|ops| - 1];
            Observed(t, ops, order) == if Observes(op, order) then Max(before, op.amount) else before
  {
    hide Sound, Do, After;
    AcceptedPrefix(t, ops);
  }

  /** No smaller than any observation of the order, and zero or one of them. */
  ghost predicate IsLargest(ops: seq<Op>, order: Name, r: real) {
    && (forall i :: 0 <= i < |ops| && Observes(ops[i], order) ==> ops[i].amount <= r)
    && (r == 0.0 || exists i :: 0 <= i < |ops| && Observes(ops[i], order) && ops[i].amount == r)
  }

  lemma LargestStep(ops: seq<Op>, order: Name, before: real, after: real)
    requires ops != [] && IsLargest(ops[..|ops| - 1], order, before)
    requires after == if Observes(ops[|ops| - 1], order) then Max(before, ops[|ops| - 1].amount) else before
    ensures IsLargest(ops, order, after)
  {
    var init := ops[..|ops| - 1];
    if after == before != 0.0 {
      var i :| 0 <= i < |init| && Observes(init[i], order) && init[i].amount == before;
      assert Observes(ops[i], order);
    }
  }

  lemma {:induction false} ObservedIsLargest(t: Tables, ops: seq<Op>, order: Name)
    requires Sound(t) && AllAccepted(t, ops)
    ensures IsLargest(ops, order, Observed(t, ops, order))
  {
    hide Sound, AllAccepted;
    if ops != [] {
      hide Observed, IsLargest;
      ObservedStep(t, ops, order);
      ObservedIsLargest(t, ops[..|ops| - 1], order);
      LargestStep(ops, order, Observed(t, ops[..|ops| - 1], order), Observed(t, ops, order));
    }
  }

  lemma ObservedIsSame(t: Tables, a: seq<Op>, b: seq<Op>, order: Name)
    requires Sound(t) && AllAccepted(t, a) && AllAccepted(t, b) && forall op :: op in a <==> op in b
    ensures Observed(t, a, order) == Observed(t, b, order)
  {
    hide Sound, Do, After, AllAccepted, Observed;
    ObservedIsLargest(t, a, order);
    ObservedIsLargest(t, b, order);
    assert forall i :: 0 <= i < |a| ==> a[i] in b;
    assert forall i :: 0 <= i < |b| ==> b[i] in a;
  }

  /** Where the fill of an inbox entry came from. */
  ghost predicate FromReport(t: Tables, ops: seq<Op>, key: Name, e: Execution) {
    if key in t.inbox then e == t.inbox[key].execution
    else exists op :: op in ops && op.StageOp? && op.execution.Key() == key && op.execution == e
  }

  lemma {:induction false} EntriesFromReports(t: Tables, ops: seq<Op>, key: Name)
    requires Sound(t) && key in After(t, ops).inbox
    ensures FromReport(t, ops, key, After(t, ops).inbox[key].execution)
  {
    if ops != [] {
      hide Sound, Stage, Apply, Observe;
      var init, op := ops[..|ops| - 1], ops[|ops| - 1];
      var before := After(t, init);
      assert ops == init + [op];
      StepEntry(before, op, key);
      if key in before.inbox {
        EntriesFromReports(t, init, key);
      } else {
        RunsExtend(t, init);
      }
    }
  }

  lemma StepEntry(t: Tables, op: Op, key: Name)
    requires Sound(t) && key in Step(t, op).inbox
    ensures key in t.inbox ==> Step(t, op).inbox[key].execution == t.inbox[key].execution
    ensures key !in t.inbox ==>
        op.StageOp? && op.execution.Key() == key && Step(t, op).inbox[key].execution == op.execution
  {
    hide Keyed, Filled, Positions, Watermarks, Balanced, Events, Stage, Apply, Observe, Rises, SameOrder, Projected;
    StepExtends(t, op);
    if Do(t, op).Ok? {
      match op
      case StageOp(e, receivedAt, day) => StageKeepsSound(t, e, receivedAt, day);
      case ApplyOp(k) => SoundIsLong(t); SoundIsStaged(t); ApplyKeepsSound(t, k);
      case ObserveOp(order, amount, asset, observedAt, day) => ObserveRaises(t, order, amount, asset, observedAt, day);
      case PlaceOp(_, _) =>
    }
  }

  lemma StepRecords(t: Tables, op: Op, key: Name)
    requires Sound(t) && Do(t, op).Ok?
    ensures Find(Step(t, op).executions, key) ==
            if Find(t.executions, key).None? && op == ApplyOp(key) && key in t.inbox then Some(t.inbox[key].execution)
            else Find(t.executions, key)
    ensures op == ApplyOp(key) ==> key in t.inbox
  {
    hide Filled, Positions, Watermarks, Balanced, Events, Stage, Apply, Observe, Find, FillSum, ApplyLong, HasId,
         ChargedOnce, Recordings;
    match op
    case StageOp(e, receivedAt, day) => StageKeepsSound(t, e, receivedAt, day);
    case ObserveOp(order, amount, asset, observedAt, day) => ObserveRaises(t, order, amount, asset, observedAt, day);
    case PlaceOp(_, _) =>
    case ApplyOp(k) =>
      SoundIsLong(t);
      SoundIsStaged(t);
      ApplyKeepsSound(t, k);
      if Find(t.executions, k).None? {
        var entry := t.inbox[k];
        Append(t.executions, Recorded(k, entry.execution, entry.receivedAt), entry.execution.order,
            entry.execution.Held(), key);
      }
  }

  /** The fill recorded under a key once entries have been applied: what was recorded
      before, or the entry's own fill if the key was applied. */
  function RecordedFill(first: seq<Recorded>, t: Tables, applied: bool, key: Name): Option<Execution>
    requires applied ==> key in t.inbox
  {
    if Find(first, key).Some? then Find(first, key)
    else if applied then Some(t.inbox[key].execution)
    else None
  }

  lemma RecordedStep(first: seq<Recorded>, t: Tables, op: Op, applied: bool, key: Name)
    requires Sound(t) && Do(t, op).Ok? && (applied ==> key in t.inbox)
    requires Find(t.executions, key) == RecordedFill(first, t, applied, key)
    ensures var t', now := Step(t, op), applied || op == ApplyOp(key);
            (now ==> key in t'.inbox) && Find(t'.executions, key) == RecordedFill(first, t', now, key)
  {
    hide Sound, Do, Find, Step;
    StepRecords(t, op, key);
    if key in t.inbox {
      KeepsEntries(t, op, key);
    }
  }

  /** In a fully accepted run the recorded fills are those recorded before and those whose
      entries were applied. */
  lemma {:induction false} RecordedByApplying(t: Tables, ops: seq<Op>, key: Name)
    requires Sound(t) && AllAccepted(t, ops)
    ensures ApplyOp(key) in ops ==> key in After(t, ops).inbox
    ensures Find(After(t, ops).executions, key) == RecordedFill(t.executions, After(t, ops), ApplyOp(key) in ops, key)
  {
    if ops != [] {
      hide Sound, Do, Step, AllAccepted, Find, RecordedFill;
      var init, op := ops[..|ops| - 1], ops[|ops| - 1];
      assert ops == init + [op];
      AcceptedPrefix(t, ops);
      RecordedByApplying(t, init, key);
      RecordedStep(t.executions, After(t, init), op, ApplyOp(key) in init, key);
    } else {
      hide Sound, Find, AllAccepted;
    }
  }

  lemma KeepsEntries(t: Tables, op: Op, key: Name)
    requires Sound(t) && key in t.inbox
    ensures key in Step(t, op).inbox && Step(t, op).inbox[key].execution == t.inbox[key].execution
  {
    hide Sound, Step, Rises, SameOrder;
    StepExtends(t, op);
  }

  function Without(b: seq<Recorded>, i: nat): seq<Recorded>
    requires i < |b|
  {
    b[..i] + b[i + 1..]
  }

  lemma WithoutIsRecordings(b: seq<Recorded>, i: nat)
    requires Recordings(b) && i < |b|
    ensures Recordings(Without(b, i))
  {
    var rest := Without(b, i);
    assert forall j :: 0 <= j < |rest| ==> rest[j] == b[if j < i then j else j + 1];
  }

  lemma {:induction false} WithoutSums(b: seq<Recorded>, i: nat, order: Name, key: Name)
    requires Recordings(b) && i < |b|
    ensures Stored(Without(b, i), order) == Stored(b, order) - (if b[i].execution.order == order
        then b[i].execution.commission else 0.0)
    ensures Find(Without(b, i), key) == if key == b[i].key then None else Find(b, key)
  {
    hide Stored, Find, Recordings;
    var n := |b| - 1;
    var init := b[..n];
    InitIsRecordings(b);
    assert b == init + [b[n]];
    Append(init, b[n], order, b[n].execution.Held(), key);
    if i == n {
      assert Without(b, i) == init;
    } else {
      WithoutSums(init, i, order, key);
      assert Without(b, i) == Without(init, i) + [b[n]];
      Append(Without(init, i), b[n], order, b[n].execution.Held(), key);
    }
  }

  lemma InitIsRecordings(b: seq<Recorded>)
    requires Recordings(b) && b != []
    ensures Recordings(b[..|b| - 1]) && Find(b[..|b| - 1], b[|b| - 1].key).None?
    ensures forall i :: 0 <= i < |b| - 1 ==> b[i].key != b[|b| - 1].key
  {
    hide Find;
    FindIn(b[..|b| - 1], b[|b| - 1].key);
  }

  /** Stored commissions depend only on which fills are recorded, not on their order. */
  lemma {:induction false} StoredOfSameFills(a: seq<Recorded>, b: seq<Recorded>, order: Name)
    requires Recordings(a) && Recordings(b) && forall key :: Find(a, key) == Find(b, key)
    ensures Stored(a, order) == Stored(b, order)
  {
    if a == [] {
      if b != [] {
        var found := Find(b, b[|b| - 1].key);
        assert false;
      }
    } else {
      var n := |a| - 1;
      var i := SameLast(a, b);
      WithoutSums(a, n, order, a[n].key);
      WithoutSums(b, i, order, a[n].key);
      WithoutIsRecordings(a, n);
      WithoutIsRecordings(b, i);
      forall key ensures Find(Without(a, n), key) == Find(Without(b, i), key) {
        assert Find(a, key) == Find(b, key);
        WithoutSums(a, n, order, key);
        WithoutSums(b, i, order, key);
      }
      hide Recordings, Find, Stored;
      StoredOfSameFills(Without(a, n), Without(b, i), order);
    }
  }

  lemma SameLast(a: seq<Recorded>, b: seq<Recorded>) returns (i: nat)
    requires a != [] && Recordings(b) && Find(a, a[|a| - 1].key) == Find(b, a[|a| - 1].key)
    ensures i < |b| && b[i].key == a[|a| - 1].key && b[i].execution == a[|a| - 1].execution
  {
    FindIn(b, a[|a| - 1].key);
    i :| 0 <= i < |b| && b[i].key == a[|a| - 1].key;
  }

  lemma SameFillsRecorded(t: Tables, a: seq<Op>, b: seq<Op>, key: Name)
    requires Sound(t) && AllAccepted(t, a) && AllAccepted(t, b)
    requires (forall op :: op in a <==> op in b) && Unambiguous(a)
    ensures Find(After(t, a).executions, key) == Find(After(t, b).executions, key)
  {
    hide Sound, Do, After, AllAccepted, Find;
    RecordedByApplying(t, a, key);
    RecordedByApplying(t, b, key);
    if ApplyOp(key) in a {
      EntriesFromReports(t, a, key);
      EntriesFromReports(t, b, key);
    }
  }

  // ---------------------------------------------------------------------------
  // When the order of arrival matters
  // ---------------------------------------------------------------------------

  /** The report of a fill that counts: the entry already there, or the first one of the run.
      Later reports of the same fill may carry another commission and are dropped. */
  function FirstReport(t: Tables, ops: seq<Op>, key: Name): Option<Execution> {
    if key in t.inbox then Some(t.inbox[key].execution)
    else if ops == [] then None
    else
      var before, last := FirstReport(t, ops[..|ops| - 1], key), ops[|ops| - 1];
      if before.Some? then before
      else if last.StageOp? && last.execution.Key() == key then Some(last.execution)
      else None
  }

  /** The commission that one more operation stores with an order. */
  function StoredBy(t: Tables, before: seq<Op>, op: Op, order: Name): real {
    if !op.ApplyOp? || op in before || Find(t.executions, op.key).Some? then 0.0
    else
      match FirstReport(t, before, op.key)
      case None => 0.0
      case Some(e) => if e.order == order then e.commission else 0.0
  }

  /** Commissions stored with an order by a run: those of the first reports of the fills it
      applies. */
  function NewCommission(t: Tables, ops: seq<Op>, order: Name): real {
    if ops == [] then 0.0
    else NewCommission(t, ops[..|ops| - 1], order) + StoredBy(t, ops[..|ops| - 1], ops[|ops| - 1], order)
  }

  /** The highest cumulative commission of an order that a run observes. */
  function LargestObservation(ops: seq<Op>, order: Name): real {
    if ops == [] then 0.0
    else
      var before, last := LargestObservation(ops[..|ops| - 1], order), ops[|ops| - 1];
      if Observes(last, order) then Max(before, last.amount) else before
  }

  lemma {:induction false} ObservedIsLargestObservation(t: Tables, ops: seq<Op>, order: Name)
    requires Sound(t) && AllAccepted(t, ops)
    ensures Observed(t, ops, order) == LargestObservation(ops, order)
  {
    hide Sound, AllAccepted;
    if ops != [] {
      ObservedStep(t, ops, order);
      ObservedIsLargestObservation(t, ops[..|ops| - 1], order);
      hide Observed;
    }
  }

  lemma StagedIsThere(t: Tables, op: Op)
    requires Sound(t) && op.StageOp? && Do(t, op).Ok?
    ensures op.execution.Key() in Step(t, op).inbox
  {
    hide Sound;
  }

  /** In an accepted run an entry holds the first report of its key. */
  lemma {:induction false} EntriesAreFirstReports(t: Tables, ops: seq<Op>, key: Name)
    requires Sound(t) && AllAccepted(t, ops)
    ensures var inbox := After(t, ops).inbox;
            FirstReport(t, ops, key) == if key in inbox then Some(inbox[key].execution) else None
  {
    if ops != [] {
      hide Sound, Do, Step, AllAccepted;
      var init, op := ops[..|ops| - 1], ops[|ops| - 1];
      var before := After(t, init);
      AcceptedPrefix(t, ops);
      EntriesAreFirstReports(t, init, key);
      RunsExtend(t, init);
      if op.StageOp? {
        StagedIsThere(before, op);
      }
      if key in before.inbox {
        KeepsEntries(before, op, key);
      } else if key in Step(before, op).inbox {
        StepEntry(before, op, key);
      }
    }
  }

  /** What one accepted transaction stores with an order. */
  lemma StepStores(t: Tables, op: Op, order: Name)
    requires Sound(t) && Do(t, op).Ok?
    ensures op.ApplyOp? ==> op.key in t.inbox
    ensures var e := if op.ApplyOp? && op.key in t.inbox && Find(t.executions, op.key).None?
                     then Some(t.inbox[op.key].execution) else None;
            Stored(Step(t, op).executions, order) ==
            Stored(t.executions, order) + if e.Some? && e.value.order == order then e.value.commission else 0.0
  {
    hide Filled, Positions, Watermarks, Balanced, Events, Stage, Apply, Observe, Find, FillSum, ApplyLong, HasId,
         ChargedOnce, Recordings, Stored;
    match op
    case StageOp(e, receivedAt, day) => StageKeepsSound(t, e, receivedAt, day);
    case ObserveOp(o, amount, asset, observedAt, day) => ObserveRaises(t, o, amount, asset, observedAt, day);
    case PlaceOp(_, _) =>
    case ApplyOp(k) =>
      SoundIsLong(t);
      SoundIsStaged(t);
      ApplyKeepsSound(t, k);
      if Find(t.executions, k).None? {
        var entry := t.inbox[k];
        Append(t.executions, Recorded(k, entry.execution, entry.receivedAt), order, entry.execution.Held(), k);
      }
  }

  /** The commissions stored after an accepted run can be read off its operations. */
  lemma {:induction false} StoredByRun(t: Tables, ops: seq<Op>, order: Name)
    requires Sound(t) && AllAccepted(t, ops)
    ensures Stored(After(t, ops).executions, order) == Stored(t.executions, order) + NewCommission(t, ops, order)
  {
    if ops != [] {
      hide Sound, Do, Step, AllAccepted, Find, Stored, FirstReport;
      var init, op := ops[..|ops| - 1], ops[|ops| - 1];
      AcceptedPrefix(t, ops);
      StoredByRun(t, init, order);
      StepStores(After(t, init), op, order);
      if op.ApplyOp? {
        EntriesAreFirstReports(t, init, op.key);
        RecordedByApplying(t, init, op.key);
      }
    }
  }

  /** Two accepted runs of the same transactions charge an order the same total exactly when
      the first reports of the fills they apply add up to the same commissions, or when both
      sums stay within what the order was charged before and what history observed. */
  lemma ChargesAgreeExactly(t: Tables, a: seq<Op>, b: seq<Op>, order: Name)
    requires Sound(t) && AllAccepted(t, a) && AllAccepted(t, b) && multiset(a) == multiset(b)
    ensures var stored := Stored(t.executions, order);
            var known := Max(Level(t, order), LargestObservation(a, order));
            Charged(After(t, a).profits, order) == Charged(After(t, b).profits, order) <==>
              || NewCommission(t, a, order) == NewCommission(t, b, order)
              || (stored + NewCommission(t, a, order) <= known && stored + NewCommission(t, b, order) <= known)
  {
    hide Do, After, AllAccepted, Observed, Level, Charged, Sound, Stored, NewCommission, LargestObservation;
    forall op ensures op in a <==> op in b {
      assert op in multiset(a) <==> op in multiset(b);
    }
    ObservedIsSame(t, a, b, order);
    ObservedIsLargestObservation(t, a, order);
    StoredByRun(t, a, order);
    StoredByRun(t, b, order);
    LevelIsLargest(t, a, order);
    LevelIsLargest(t, b, order);
  }

  /** When all reports of each fill agree, commission included, the first reports are the same
      in any order, and so is the charge. */
  lemma AgreeingReportsChargeTheSame(t: Tables, a: seq<Op>, b: seq<Op>, order: Name)
    requires Sound(t) && AllAccepted(t, a) && AllAccepted(t, b) && multiset(a) == multiset(b)
    ensures Unambiguous(a) ==>
              && NewCommission(t, a, order) == NewCommission(t, b, order)
              && Charged(After(t, a).profits, order) == Charged(After(t, b).profits, order)
  {
    hide Do, After, AllAccepted, Unambiguous, Level, Charged, Filled, Positions, Watermarks, Balanced, Events,
         Recordings, Find, NewCommission, LargestObservation, Stored;
    if Unambiguous(a) {
      forall op ensures op in a <==> op in b {
        assert op in multiset(a) <==> op in multiset(b);
      }
      forall key ensures Find(After(t, a).executions, key) == Find(After(t, b).executions, key) {
        SameFillsRecorded(t, a, b, key);
      }
      assert Keyed(After(t, a)) && Keyed(After(t, b));
      StoredOfSameFills(After(t, a).executions, After(t, b).executions, order);
      StoredByRun(t, a, order);
      StoredByRun(t, b, order);
      ChargesAgreeExactly(t, a, b, order);
    }
  }

  /** Whatever sources reported which fills first, two runs that observed the same history
      charge the same exactly when they stored the same commissions or when history had
      already reported at least as much as either stored. */
  lemma HistoryDecides(t: Tables, a: seq<Op>, b: seq<Op>, order: Name)
    requires Sound(t) && Observed(t, a, order) == Observed(t, b, order)
    ensures var inA, inB := Stored(After(t, a).executions, order), Stored(After(t, b).executions, order);
            var known := Max(Level(t, order), Observed(t, a, order));
            && (Charged(After(t, a).profits, order) == Charged(After(t, b).profits, order) <==>
                  inA == inB || (inA <= known && inB <= known))
            && (inA <= known ==> Level(After(t, a), order) == known)
  {
    hide Sound, After, Observed, Level, Charged, Stored;
    LevelIsLargest(t, a, order);
    LevelIsLargest(t, b, order);
  }

  // ---------------------------------------------------------------------------
  // Identifiers and statuses
  // ---------------------------------------------------------------------------

  lemma {:induction false} PersistedFailsOnAssets(executions: seq<Recorded>, order: Name)
    ensures PersistedCommission(executions, order).Err? ==>
        PersistedCommission(executions, order).error == CommissionConflict
  {
    if executions != [] {
      PersistedFailsOnAssets(executions[..|executions| - 1], order);
    }
  }

  lemma AdvanceNeverDuplicates(t: Tables, order: Name, strategy: Name, amount: real, asset: Name, observedAt: int)
    ensures Advance(t, order, strategy, amount, asset, observedAt) != Err(DuplicateId)
    ensures Synchronize(t, order, strategy, amount, asset, observedAt) != Err(DuplicateId)
  {
    hide PersistedCommission;
    PersistedFailsOnAssets(t.executions, order);
  }

  lemma ObserveNeverDuplicates(t: Tables, order: Name, amount: real, asset: Name, observedAt: int, day: Name)
    requires Events(t)
    ensures Observe(t, order, amount, asset, observedAt, day) != Err(DuplicateId)
  {
    hide Advance, Upsert, DayOf, HasEvent, Level;
    if order in t.orders {
      var strategy := t.orders[order].strategy;
      AdvanceNeverDuplicates(t, order, strategy, amount, asset, observedAt);
      if Advance(t, order, strategy, amount, asset, observedAt).Ok? {
        AdvanceMoves(t, order, strategy, amount, asset, observedAt);
        if amount > Level(t, order) {
          ObservationIsNew(t, order, asset, amount);
        }
      }
    }
  }

  lemma FillEventsAreNew(t: Tables, e: Name, c: Component)
    requires Events(t) && !HasId(t.executions, e)
    ensures !HasEvent(t.profits, OfExecution(e, c))
  {
    hide HasId;
    assert !Sourced(t, OfExecution(e, c));
  }

  lemma RecordNeverDuplicates(t: Tables, e: Execution, day: Name, delta: real, realized: real, closed: bool)
    requires forall c :: !HasEvent(t.profits, OfExecution(e.id, c))
    ensures RecordFill(t, e, day, delta, realized, closed) != Err(DuplicateId)
  {
    hide Upsert, DayOf, WithTotal;
  }

  lemma ChargeNeverDuplicates(t: Tables, e: Execution, day: Name, realized: real, closed: bool)
    requires forall c :: !HasEvent(t.profits, OfExecution(e.id, c))
    ensures ChargeFill(t, e, day, realized, closed) != Err(DuplicateId)
  {
    hide Synchronize, PersistedCommission, RecordFill, HasEvent;
    PersistedFailsOnAssets(t.executions, e.order);
    var stored := PersistedCommission(t.executions, e.order);
    if stored.Ok? {
      var asset := if stored.value.asset.Some? then stored.value.asset.value else e.asset;
      AdvanceNeverDuplicates(t, e.order, e.strategy, stored.value.total, asset, stored.value.observedAt);
      var advanced := Synchronize(t, e.order, e.strategy, stored.value.total, asset, stored.value.observedAt);
      if advanced.Ok? {
        RecordNeverDuplicates(t.(commissions := advanced.value.commissions), e, day, advanced.value.delta, realized,
            closed);
      }
    }
  }

  lemma ProjectDuplicates(t: Tables, key: Name, e: Execution, day: Name, receivedAt: int)
    requires Events(t) && LongOnly(t) && e.Valid()
    requires ProjectNew(t, key, e, day, receivedAt) == Err(DuplicateId)
    ensures HasId(t.executions, e.id)
  {
    hide ChargeFill, Synchronize, PersistedCommission, HasId, FillSum, ApplyLong, HasEvent, Sourced, Events;
    if !HasId(t.executions, e.id) {
      forall c ensures !HasEvent(t.profits, OfExecution(e.id, c)) {
        FillEventsAreNew(t, e.id, c);
      }
      BaselineNeverDuplicates(t, e, receivedAt);
      var order := MatchingOrder(t, e).value;
      var based := Baseline(t, e, receivedAt).value;
      var added := AddExecution(based, key, e, order, receivedAt).value;
      var moved := MovePosition(added, e).value;
      ChargeNeverDuplicates(added.(positions := moved.positions), e, day, moved.realized, moved.closed);
    }
  }

  lemma BaselineNeverDuplicates(t: Tables, e: Execution, receivedAt: int)
    ensures Baseline(t, e, receivedAt) != Err(DuplicateId)
    ensures Baseline(t, e, receivedAt).Ok? ==>
              var t' := Baseline(t, e, receivedAt).value; t' == t.(commissions := t'.commissions)
  {
    hide Synchronize, PersistedCommission;
    PersistedFailsOnAssets(t.executions, e.order);
    var stored := PersistedCommission(t.executions, e.order);
    if stored.Ok? {
      var asset := if stored.value.asset.Some? then stored.value.asset.value else e.asset;
      AdvanceNeverDuplicates(t, e.order, e.strategy, stored.value.total, asset,
                             if stored.value.observedAt == 0 then receivedAt else stored.value.observedAt);
    }
  }

  /** Profit events never collide: a transaction is refused for a repeated identifier only
      when another fill was recorded under the same execution identifier. */
  lemma IdentifiersNeverCollide(t: Tables, op: Op)
    requires Sound(t) && Do(t, op) == Err(DuplicateId)
    ensures op.ApplyOp? && op.key in t.inbox && HasId(t.executions, t.inbox[op.key].execution.id)
  {
    hide Recordings, Filled, Positions, Balanced, ProjectNew, HasId, Find, Observe, Events;
    match op
    case StageOp(e, receivedAt, day) => assert false;
    case PlaceOp(_, _) => assert false;
    case ObserveOp(order, amount, asset, observedAt, day) =>
      ObserveNeverDuplicates(t, order, amount, asset, observedAt, day);
      assert false;
    case ApplyOp(key) =>
      SoundIsLong(t);
      var entry := t.inbox[key];
      ProjectDuplicates(t, key, entry.execution, entry.day, entry.receivedAt);
  }

  /** The fill level a fill leaves its order at. */
  function LevelAfter(t: Tables, e: Execution): real
    requires e.order in t.orders
  {
    Max(t.orders[e.order].filled, FillSum(t.executions, e.order) + e.fill.quantity)
  }

  /** A late fill of an order that is no longer open, a cancelled one say, puts it back among
      the open orders exactly when it leaves the order short of its requested quantity. */
  lemma LateFillReopens(t: Tables, key: Name)
    requires Sound(t) && LongOnly(t) && StagedValid(t) && Apply(t, key).Ok?
    requires !t.inbox[key].applied && Find(t.executions, key).None?
    requires t.inbox[key].execution.order !in OpenOrders(t)
    ensures var e := t.inbox[key].execution;
            && e.order in t.orders
            && (e.order in OpenOrders(Apply(t, key).value) <==> LevelAfter(t, e) < t.orders[e.order].requested)
  {
    hide Sound, Apply, Find, ApplyLong, HasId, FillSum, ChargedOnce;
    ApplyKeepsSound(t, key);
    var entry := t.inbox[key];
    Append(t.executions, Recorded(key, entry.execution, entry.receivedAt), entry.execution.order,
           entry.execution.Held(), key);
  }
}
