/** Runs of the ledger from an empty database, as witnesses of what can happen. */
module LedgerExamples {
  import opened Decimals
  import opened Accounting
  import opened Ledger
  import opened LedgerLemmas
  import opened LedgerInvariant
  import opened LedgerRuns
  import opened LedgerTheorems

  const EMPTY_LEDGER := Tables(map[], map[], [], map[], map[], [], [])

  lemma EmptyIsSound()
    ensures Sound(EMPTY_LEDGER)
  {
    NewLedgerIsSound(map[]);
  }

  /** One order on file and one purchase staged for it, nothing else. */
  function FirstFill(row: OrderRow, e: Execution, receivedAt: int, day: Name): Tables {
    EMPTY_LEDGER.(orders := map[e.order := row], inbox := map[e.Key() := Staged(e, day, receivedAt, false)])
  }

  /** A purchase that fits a new order. */
  predicate Fits(row: OrderRow, e: Execution) {
    && e.Valid() && e.fill.side == Buy == row.side && row.strategy == e.strategy && row.instrument == e.instrument
    && row.filled == 0.0 && e.fill.quantity <= row.requested
  }

  lemma OneExecution(r: Recorded)
    ensures PersistedCommission([], r.execution.order) == Ok(Persisted(0.0, None, 0))
    ensures PersistedCommission([r], r.execution.order) ==
            Ok(Persisted(0.0 + r.execution.commission, Some(r.execution.asset), Later(r.receivedAt, 0)))
    ensures FillSum([r], r.execution.order) == r.execution.fill.quantity
  {
    assert [r][..0] == [];
  }

  lemma FirstFillIsCharged(t: Tables, e: Execution, receivedAt: int, day: Name, realized: real)
    requires t.executions == [Recorded(e.Key(), e, receivedAt)] && t.profits == [] && e.order in t.commissions
    requires t.commissions[e.order].strategy == e.strategy && t.commissions[e.order].asset == e.asset
    requires t.commissions[e.order].cumulative == 0.0 && e.commission >= 0.0
    ensures ChargeFill(t, e, day, realized, false).Ok?
  {
    hide Upsert, DayOf, WithTotal, PersistedCommission;
    OneExecution(t.executions[0]);
  }

  lemma FirstFillIsProjected(row: OrderRow, e: Execution, receivedAt: int, day: Name)
    requires Fits(row, e)
    ensures ProjectNew(FirstFill(row, e, receivedAt, day), e.Key(), e, day, receivedAt).Ok?
  {
    hide ChargeFill, PersistedCommission, FillSum, WeightedAverage;
    var t, r := FirstFill(row, e, receivedAt, day), Recorded(e.Key(), e, receivedAt);
    OneExecution(r);
    assert t.executions + [r] == [r];
    var based := Baseline(t, e, receivedAt).value;
    var added := AddExecution(based, e.Key(), e, row, receivedAt).value;
    var moved := MovePosition(added, e).value;
    FirstFillIsCharged(added.(positions := moved.positions), e, receivedAt, day, moved.realized);
  }

  function OneOrder(order: Name, row: OrderRow): Tables {
    EMPTY_LEDGER.(orders := map[order := row])
  }

  function Reports(e: Execution, first: real, second: real): seq<Op> {
    [StageOp(e.(commission := first), 1, "d"), StageOp(e.(commission := second), 1, "d"), ApplyOp(e.Key())]
  }

  lemma Prefixes(a: Op, b: Op, c: Op)
    ensures [a, b, c][..0] == [] && [a, b, c][..1] == [a] && [a, b, c][..2] == [a, b]
    ensures [a, b][..1] == [a] && [a][..0] == []
  {
  }

  lemma AfterOne(t: Tables, a: Op)
    requires Sound(t)
    ensures After(t, [a]) == Step(t, a)
  {
    hide Sound, Step;
    assert [a][..0] == [];
  }

  lemma AfterThree(t: Tables, a: Op, b: Op, c: Op)
    requires Sound(t)
    ensures After(t, [a, b]) == Step(Step(t, a), b)
    ensures After(t, [a, b, c]) == Step(Step(Step(t, a), b), c)
  {
    hide Sound, Step;
    Prefixes(a, b, c);
    AfterOne(t, a);
  }

  /** Both reports of a fill are staged and the fill is applied, with the first one's commission. */
  lemma ReportsAreAccepted(row: OrderRow, e: Execution, first: real, second: real)
    requires Fits(row, e) && 0.0 < row.requested && first >= 0.0 && second >= 0.0
    ensures var t := OneOrder(e.order, row);
            Sound(t) && AllAccepted(t, Reports(e, first, second))
  {
    hide Apply, Keyed, Filled, Positions, Watermarks, Balanced, Events, Owned;
    var t, x, y := OneOrder(e.order, row), e.(commission := first), e.(commission := second);
    NewLedgerIsSound(map[e.order := row]);
    var a, b, c := StageOp(x, 1, "d"), StageOp(y, 1, "d"), ApplyOp(e.Key());
    Prefixes(a, b, c);
    AfterOne(t, a);
    AfterThree(t, a, b, c);
    assert Step(t, a) == FirstFill(row, x, 1, "d");
    assert Step(Step(t, a), b) == FirstFill(row, x, 1, "d");
    FirstFillIsApplied(row, x, 1, "d");
  }

  lemma FirstFillIsApplied(row: OrderRow, e: Execution, receivedAt: int, day: Name)
    requires Fits(row, e)
    ensures Apply(FirstFill(row, e, receivedAt, day), e.Key()).Ok?
  {
    hide ProjectNew;
    FirstFillIsProjected(row, e, receivedAt, day);
  }

  lemma ReportsCharge(row: OrderRow, e: Execution, first: real, second: real)
    requires Fits(row, e) && 0.0 < row.requested && first >= 0.0 && second >= 0.0
    ensures var t := OneOrder(e.order, row);
            Sound(t) && Charged(After(t, Reports(e, first, second)).profits, e.order) == first
  {
    hide Sound, After, AllAccepted, Observed;
    var t, ops := OneOrder(e.order, row), Reports(e, first, second);
    ReportsAreAccepted(row, e, first, second);
    LevelIsLargest(t, ops, e.order);
    ObservedIsLargestObservation(t, ops, e.order);
    StoredByRun(t, ops, e.order);
    ReportsAddUp(t, e, first, second);
  }

  lemma ReportsAddUp(t: Tables, e: Execution, first: real, second: real)
    requires e.Key() !in t.inbox && t.executions == []
    ensures NewCommission(t, Reports(e, first, second), e.order) == first
    ensures LargestObservation(Reports(e, first, second), e.order) == 0.0
  {
    var ops := Reports(e, first, second);
    var none, one, two := ops[..0], ops[..1], ops[..2];
    assert two[..1] == one && one[..0] == none;
    assert FirstReport(t, one, e.Key()) == Some(e.(commission := first));
    assert FirstReport(t, two, e.Key()) == Some(e.(commission := first));
    assert NewCommission(t, one, e.order) == 0.0 && LargestObservation(one, e.order) == 0.0;
    assert NewCommission(t, two, e.order) == 0.0 && LargestObservation(two, e.order) == 0.0;
  }

  /** One fill reported with a commission of five by one source and of nothing by another: the
      same accepted transactions charge five or nothing, depending on which report came first. */
  lemma FirstReportDecides()
    ensures var row := OrderRow("s", "i", Buy, 10.0, 0.0, "accepted");
            var e := Execution("x", "k", "o", "s", "i", Fill(Buy, 4.0, 1.0), "RUB", 0.0, 0);
            var t, a, b := OneOrder("o", row), Reports(e, 5.0, 0.0), Reports(e, 0.0, 5.0);
            && Sound(t) && AllAccepted(t, a) && AllAccepted(t, b) && multiset(a) == multiset(b)
            && Charged(After(t, a).profits, "o") == 5.0 && Charged(After(t, b).profits, "o") == 0.0
  {
    hide Sound, After, AllAccepted, Charged;
    var row := OrderRow("s", "i", Buy, 10.0, 0.0, "accepted");
    var e := Execution("x", "k", "o", "s", "i", Fill(Buy, 4.0, 1.0), "RUB", 0.0, 0);
    ReportsAreAccepted(row, e, 5.0, 0.0);
    ReportsAreAccepted(row, e, 0.0, 5.0);
    ReportsCharge(row, e, 5.0, 0.0);
    ReportsCharge(row, e, 0.0, 5.0);
  }

  /** Storing an order, staging a purchase for it and applying it. */
  lemma LateFillRun(row: OrderRow, e: Execution)
    requires Fits(row, e) && 0.0 < row.requested
    ensures var ops := [PlaceOp(e.order, row), StageOp(e, 1, "d"), ApplyOp(e.Key())];
            && Sound(EMPTY_LEDGER) && AllAccepted(EMPTY_LEDGER, ops)
            && var t := FirstFill(row, e, 1, "d");
               && Sound(t) && LongOnly(t) && StagedValid(t) && Apply(t, e.Key()).Ok?
               && After(EMPTY_LEDGER, ops[..2]) == t && After(EMPTY_LEDGER, ops) == Apply(t, e.Key()).value
  {
    hide Apply, Keyed, Filled, Positions, Watermarks, Balanced, Events, Owned;
    var a, b, c := PlaceOp(e.order, row), StageOp(e, 1, "d"), ApplyOp(e.Key());
    EmptyIsSound();
    Prefixes(a, b, c);
    AfterOne(EMPTY_LEDGER, a);
    AfterThree(EMPTY_LEDGER, a, b, c);
    assert Step(EMPTY_LEDGER, a) == OneOrder(e.order, row);
    var t := FirstFill(row, e, 1, "d");
    assert Step(OneOrder(e.order, row), b) == t;
    FirstFillIsApplied(row, e, 1, "d");
    SoundIsUsable(t);
  }

  /** An order stored as cancelled, a fill of part of it staged late and applied: the order is
      open again. */
  lemma CancelledOrderReopens()
    ensures var row := OrderRow("s", "i", Buy, 10.0, 0.0, "cancelled");
            var e := Execution("x", "k", "o", "s", "i", Fill(Buy, 4.0, 1.0), "RUB", 0.0, 0);
            var ops := [PlaceOp("o", row), StageOp(e, 1, "d"), ApplyOp("k")];
            && Sound(EMPTY_LEDGER) && AllAccepted(EMPTY_LEDGER, ops)
            && "o" in After(EMPTY_LEDGER, ops[..2]).orders
            && After(EMPTY_LEDGER, ops[..2]).orders["o"].status == "cancelled"
            && "o" !in OpenOrders(After(EMPTY_LEDGER, ops[..2])) && "o" in OpenOrders(After(EMPTY_LEDGER, ops))
  {
    hide Sound, LongOnly, StagedValid, Apply, After, AllAccepted;
    var row := OrderRow("s", "i", Buy, 10.0, 0.0, "cancelled");
    var e := Execution("x", "k", "o", "s", "i", Fill(Buy, 4.0, 1.0), "RUB", 0.0, 0);
    LateFillRun(row, e);
    LateFillReopens(FirstFill(row, e, 1, "d"), "k");
  }
}
