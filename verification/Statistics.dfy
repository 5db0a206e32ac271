/** The statistics reducer's state: the profit components of one strategy in one asset. */
module Statistics {
  import opened Decimals
  import opened Accounting

  datatype Execution = Execution(strategy: string, asset: string, fill: Fill, commission: real, commissionAsset: string)

  predicate ValidExecutions(es: seq<Execution>) {
    forall i :: 0 <= i < |es| ==> es[i].fill.Valid()
  }

  datatype State = State(strategy: string, asset: string, books: Books, unrealized: real,
                         commissions: real, funding: real, unrealizedComplete: bool, fundingComplete: bool)

  datatype ReducerError = StrategyMismatch | AssetMismatch | IncompletePnL

  function NewState(strategy: string, asset: string): State {
    State(strategy, asset, FLAT, 0.0, 0.0, 0.0, true, true)
  }

  function ApplyExecution(state: State, e: Execution): Result<State, ReducerError>
    requires e.fill.Valid()
  {
    if e.strategy != state.strategy then Err(StrategyMismatch)
    else if e.asset != state.asset || e.commissionAsset != state.asset then Err(AssetMismatch)
    else Ok(state.(commissions := state.commissions + e.commission, books := ApplyTo(state.books, e.fill)))
  }

  function MarkToMarket(state: State, price: real, asset: string, complete: bool): Result<State, ReducerError> {
    if asset != state.asset then Err(AssetMismatch)
    else
      var p := state.books.position;
      var unrealized := if p.quantity == 0.0 then 0.0 else Spread(p.average, price, p.quantity);
      Ok(state.(unrealized := unrealized, unrealizedComplete := complete))
  }

  function Total(state: State): Result<real, ReducerError> {
    if !state.unrealizedComplete || !state.fundingComplete then Err(IncompletePnL)
    else Ok(state.books.realized + state.unrealized - state.commissions + state.funding)
  }

  /** An execution is taken exactly when it is the strategy's own and its price and commission
      are in the state's asset; a mark in that asset is complete when it is said to be; a total
      is given exactly when it is complete. */
  lemma ReducerAccepts(state: State, e: Execution)
    requires e.fill.Valid()
    ensures ApplyExecution(state, e).Ok? <==>
              e.strategy == state.strategy && e.asset == state.asset && e.commissionAsset == state.asset
    ensures Total(state).Ok? <==> state.unrealizedComplete && state.fundingComplete
    ensures forall price, asset, complete ::
              var marked := MarkToMarket(state, price, asset, complete);
              && (marked.Ok? <==> asset == state.asset)
              && (marked.Ok? ==>
                    && marked.value.unrealizedComplete == complete
                    && marked.value == state.(unrealized := marked.value.unrealized, unrealizedComplete := complete))
  {
    hide ApplyTo;
  }

  function FoldExecutions(state: State, es: seq<Execution>): Result<State, ReducerError>
    requires ValidExecutions(es)
  {
    if es == [] then Ok(state)
    else
      var before := FoldExecutions(state, es[..|es| - 1]);
      if before.Err? then before else ApplyExecution(before.value, es[|es| - 1])
  }

  function Fills(es: seq<Execution>): (fs: seq<Fill>)
    ensures |fs| == |es| && forall i :: 0 <= i < |es| ==> fs[i] == es[i].fill
  {
    seq(|es|, i requires 0 <= i < |es| => es[i].fill)
  }

  function TotalCommission(es: seq<Execution>): real {
    if es == [] then 0.0 else TotalCommission(es[..|es| - 1]) + es[|es| - 1].commission
  }

  lemma {:induction false} FoldExecutionsKeepsBooks(state: State, es: seq<Execution>)
    requires ValidExecutions(es)
    ensures var end := FoldExecutions(state, es);
            end.Ok? ==>
              end.value == state.(books := FoldFills(state.books, Fills(es)),
                                  commissions := state.commissions + TotalCommission(es))
  {
    if es != [] {
      FoldExecutionsKeepsBooks(state, es[..|es| - 1]);
      assert Fills(es)[..|es| - 1] == Fills(es[..|es| - 1]);
    }
  }

  /** The reported total after marking is cash flow plus the marked holding less every
      commission charged, whatever was traded, up to the rounding of the averages. */
  lemma {:induction false} TotalFollowsCash(strategy: string, asset: string, es: seq<Execution>, mark: real)
    requires ValidExecutions(es)
    requires FoldExecutions(NewState(strategy, asset), es).Ok?
    ensures var end := FoldExecutions(NewState(strategy, asset), es).value;
            var marked := MarkToMarket(end, mark, asset, true);
            && marked.Ok? && Total(marked.value).Ok?
            && Abs(Total(marked.value).value - (CashWorth(Fills(es), mark) - TotalCommission(es)))
               <= RoundingBound(Fills(es))
  {
    hide FoldExecutions, FoldFills, CashWorth, RoundingBound, TotalCommission;
    FoldExecutionsKeepsBooks(NewState(strategy, asset), es);
    MarkedProfit(Fills(es), mark);
    var end := FoldExecutions(NewState(strategy, asset), es).value;
    MarkingAddsHoldingGain(end, mark);
  }

  lemma {:induction false} MarkingAddsHoldingGain(state: State, mark: real)
    requires state.fundingComplete
    ensures Total(MarkToMarket(state, mark, state.asset, true).value)
            == Ok(MarkedValue(state.books, mark) - state.commissions + state.funding)
  {
    EmptySpread(state.books.position, mark);
    hide Spread;
  }
}
