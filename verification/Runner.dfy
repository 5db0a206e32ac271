/** The backtest event loop: it ties the candle dataset, the broker and the report
    together, with the strategy and the risk check as arbitrary deciders. */
module Runners {
  import opened Decimals
  import opened Accounting
  import opened Pricing
  import opened Broker
  import opened BrokerLemmas
  import opened OrderLife
  import opened Runs
  import opened OrderRequests
  import opened SimulatedBrokers
  import opened Reports
  import D = Dataset
  import Drawdowns

  datatype Action = BuyAction | SellAction | CloseAction | Unsupported

  /** What a strategy proposes; the worker adds the cursor of the event that caused it. */
  datatype Draft = Draft(id: Id, action: Action, strategy: string, instrument: string, orderType: OrderType,
                         quantity: real, limit: Limit, limitAsset: string)

  datatype Signal = Signal(draft: Draft, cursor: int)

  datatype Decision = Allow | Reject | RiskError

  datatype RunError = BadDataset(row: D.RowError) | ClockBackwards | BrokerError(error: Error) | StrategyFailed
                    | RiskFailed | UnsupportedAction

  /** The outside world of a run: a strategy over the candles so far, a risk check over
      the candles and trades so far, and the function naming orders after signals. */
  datatype World = World(strategy: seq<Candle> -> Option<seq<Draft>>,
                         risk: (seq<Candle>, seq<Trade>, Signal, PortfolioSnapshot) -> Decision,
                         name: Id -> Id)

  function RequestForSignal(name: Id -> Id, signal: Signal): Option<Request> {
    var d := signal.draft;
    var id := name(d.id);
    if d.action == Unsupported then None
    else
      var side := if d.action == BuyAction then Buy else Sell;
      Some(Request(id, id, d.strategy, d.instrument, side, d.orderType, d.quantity, d.limit, d.limitAsset,
                   signal.cursor, signal.cursor))
  }

  /** The request a signal asks for: a purchase for a buy, a sale for a sell or a close, on the
      draft's own terms, at the moment of the event that caused it, under one name. */
  predicate AsksFor(name: Id -> Id, signal: Signal, q: Request) {
    var d := signal.draft;
    && d.action in {BuyAction, SellAction, CloseAction}
    && q.orderId == q.clientId == name(d.id)
    && (q.side == Buy <==> d.action == BuyAction)
    && q.strategy == d.strategy && q.instrument == d.instrument && q.orderType == d.orderType
    && q.quantity == d.quantity && q.limit == d.limit && q.limitAsset == d.limitAsset
    && q.submittedAt == q.cursor == signal.cursor
  }

  lemma RequestsAsk(name: Id -> Id, signal: Signal)
    ensures RequestForSignal(name, signal).None? <==> signal.draft.action !in {BuyAction, SellAction, CloseAction}
    ensures RequestForSignal(name, signal).Some? ==> AsksFor(name, signal, RequestForSignal(name, signal).value)
  {
  }

  function StampAll(drafts: seq<Draft>, cursor: int): (signals: seq<Signal>)
    ensures |signals| == |drafts| && forall i :: 0 <= i < |drafts| ==> signals[i] == Signal(drafts[i], cursor)
  {
    seq(|drafts|, i requires 0 <= i < |drafts| => Signal(drafts[i], cursor))
  }

  /** The requests of the signals that the risk check allows, in their order. */
  function Allowed(world: World, candles: seq<Candle>, trades: seq<Trade>, snapshot: PortfolioSnapshot,
                   signals: seq<Signal>): seq<Request>
  {
    if signals == [] then []
    else
      var last := signals[|signals| - 1];
      var request := RequestForSignal(world.name, last);
      Allowed(world, candles, trades, snapshot, signals[..|signals| - 1]) +
      if world.risk(candles, trades, last, snapshot) == Allow && request.Some? then [request.value] else []
  }

  predicate Allows(world: World, candles: seq<Candle>, trades: seq<Trade>, snapshot: PortfolioSnapshot, signal: Signal)
  {
    world.risk(candles, trades, signal, snapshot) == Allow
  }

  /** The requests are those of the signals at these positions: all that the risk check allows
      and that ask for anything, in their order, and no others. */
  predicate Picks(world: World, candles: seq<Candle>, trades: seq<Trade>, snapshot: PortfolioSnapshot,
                  signals: seq<Signal>, requests: seq<Request>, at: seq<nat>)
  {
    && |at| == |requests|
    && (forall j :: 0 <= j < |at| ==>
          && at[j] < |signals| && Allows(world, candles, trades, snapshot, signals[at[j]])
          && AsksFor(world.name, signals[at[j]], requests[j]))
    && (forall i, j :: 0 <= i < j < |at| ==> at[i] < at[j])
    && (forall i :: 0 <= i < |signals| ==>
          Allows(world, candles, trades, snapshot, signals[i]) && signals[i].draft.action != Unsupported ==> i in at)
  }

  lemma {:induction false} AllowedArePicked(world: World, candles: seq<Candle>, trades: seq<Trade>,
                                            snapshot: PortfolioSnapshot, signals: seq<Signal>) returns (at: seq<nat>)
    ensures Picks(world, candles, trades, snapshot, signals, Allowed(world, candles, trades, snapshot, signals), at)
  {
    at := [];
    if signals != [] {
      hide RequestForSignal, AsksFor;
      var n := |signals| - 1;
      at := AllowedArePicked(world, candles, trades, snapshot, signals[..n]);
      RequestsAsk(world.name, signals[n]);
      if Allows(world, candles, trades, snapshot, signals[n]) && signals[n].draft.action != Unsupported {
        at := at + [n];
      }
    }
  }

  function CandlesOf(ticks: seq<Tick>): (cs: seq<Candle>)
    ensures |cs| == |ticks| && forall i :: 0 <= i < |ticks| ==> cs[i] == ticks[i].candle
  {
    seq(|ticks|, i requires 0 <= i < |ticks| => ticks[i].candle)
  }

  /** The equity curve the report sees: every candle's equity, observed twice. */
  ghost function EquitiesOf(config: Config, ticks: seq<Tick>): seq<real>
    requires config.Valid()
  {
    if ticks == [] || Play(config, ticks).None? then []
    else
      var equity := Equity(Play(config, ticks).value.state);
      EquitiesOf(config, ticks[..|ticks| - 1]) + [equity] + [equity]
  }

  /** What the strategy and the risk check make of a candle: the strategy sees the candles so
      far, the risk check the account as the candle left it. */
  ghost function RequestsFor(world: World, config: Config, run: Run, candles: seq<Candle>): seq<Request>
    requires config.Valid() && WellFormed(config, run.state) && candles != []
  {
    var candle := candles[|candles| - 1];
    var settled := OnCandle(config, run.state, candle);
    var drafts := world.strategy(candles);
    if drafts.None? then []
    else
      Allowed(world, candles, run.trades + settled.trades, SnapshotOf(settled.state),
          StampAll(drafts.value, candle.end))
  }

  /** Every turn submits exactly what the strategy and the risk check called for. */
  ghost predicate Follows(world: World, config: Config, ticks: seq<Tick>)
    requires config.Valid()
  {
    forall k :: 0 <= k < |ticks| && Play(config, ticks[..k]).Some? ==>
      ticks[k].requests == RequestsFor(world, config, Play(config, ticks[..k]).value, CandlesOf(ticks[..k + 1]))
  }

  /** In turn `k` the strategy, seeing the candles so far, proposed its `i`-th draft, the risk
      check allowed it on the account as the candle left it, and it asks for this request. */
  ghost predicate Called(world: World, config: Config, ticks: seq<Tick>, k: nat, i: nat, q: Request)
    requires config.Valid()
  {
    && k < |ticks| && Play(config, ticks[..k]).Some?
    && var run, candles := Play(config, ticks[..k]).value, CandlesOf(ticks[..k + 1]);
       var drafts, settled := world.strategy(candles), OnCandle(config, run.state, ticks[k].candle);
       && drafts.Some? && i < |drafts.value|
       && var signal := Signal(drafts.value[i], ticks[k].candle.end);
          && AsksFor(world.name, signal, q)
          && Allows(world, candles, run.trades + settled.trades, SnapshotOf(settled.state), signal)
  }

  /** The order carries the terms of a request the strategy and the risk check called for. */
  ghost predicate CalledFor(world: World, config: Config, ticks: seq<Tick>, order: Order)
    requires config.Valid()
  {
    exists k, i, q :: Called(world, config, ticks, k, i, q) && OnTerms(order, q)
  }

  lemma RequestsAreCalled(world: World, config: Config, ticks: seq<Tick>, k: nat, q: Request) returns (i: nat)
    requires config.Valid() && Follows(world, config, ticks) && k < |ticks| && Play(config, ticks[..k]).Some?
    requires q in ticks[k].requests
    ensures Called(world, config, ticks, k, i, q)
  {
    hide Play, OnCandle, SubmitAll, AsksFor, Allowed, WellFormed, Allows;
    var run, candles := Play(config, ticks[..k]).value, CandlesOf(ticks[..k + 1]);
    assert candles[k] == ticks[k].candle;
    assert ticks[k].requests == RequestsFor(world, config, run, candles);
    var settled := OnCandle(config, run.state, ticks[k].candle);
    var drafts := world.strategy(candles);
    var signals := StampAll(drafts.value, ticks[k].candle.end);
    var at := AllowedArePicked(world, candles, run.trades + settled.trades, SnapshotOf(settled.state), signals);
    var j :| 0 <= j < |ticks[k].requests| && ticks[k].requests[j] == q;
    i := at[j];
  }

  /** Every order of a run belongs to an allowed draft of the strategy, on exactly its terms. */
  lemma OrdersAreCalledFor(world: World, config: Config, ticks: seq<Tick>, id: Id)
    requires config.Valid() && Paced(ticks) && Follows(world, config, ticks) && Play(config, ticks).Some?
    requires id in Play(config, ticks).value.state.orders
    ensures CalledFor(world, config, ticks, Play(config, ticks).value.state.orders[id])
  {
    hide Play, Follows, Called, TradesFor, Unseen, OutOfReach;
    var k, j, q := OrderFollowsRequest(config, ticks, id);
    PrefixPlays(config, ticks, k);
    var i := RequestsAreCalled(world, config, ticks, k, q);
    assert Called(world, config, ticks, k, i, q) && OnTerms(Play(config, ticks).value.state.orders[id], q);
  }

  datatype Report = Report(metrics: Metrics, trades: seq<Trade>, rejections: nat)

  lemma {:induction false} OneMoreTick(config: Config, ticks: seq<Tick>, tick: Tick)
    requires config.Valid() && Play(config, ticks).Some?
    ensures Play(config, ticks + [tick]) == PlayTick(config, Play(config, ticks).value, tick)
    ensures Play(config, ticks + [tick]).Some? ==>
              var equity := Equity(Play(config, ticks + [tick]).value.state);
              EquitiesOf(config, ticks + [tick]) == EquitiesOf(config, ticks) + [equity] + [equity]
    ensures CandlesOf(ticks + [tick]) == CandlesOf(ticks) + [tick.candle]
  {
    hide PlayTick, Equity;
    assert (ticks + [tick])[..|ticks|] == ticks;
  }

  lemma TicksArePaced(meta: D.Meta, rows: seq<D.Row>, ticks: seq<Tick>)
    requires meta.Valid() && D.ReadAll(meta, rows).Ok? && D.ReadAll(meta, rows).value.candles == CandlesOf(ticks)
    requires forall i :: 0 <= i < |ticks| ==> Stamped(ticks[i])
    ensures Paced(ticks)
  {
    hide D.ReadAll, Stamped, Aligned;
    D.CandlesAreOrdered(meta, rows);
    forall i | 0 < i < |ticks| ensures ticks[i - 1].candle.end <= ticks[i].candle.start {
      assert CandlesOf(ticks)[i - 1].end <= CandlesOf(ticks)[i].start;
    }
  }

  lemma AppendFills(trades: seq<Trade>, more: seq<Trade>)
    ensures FillsOf(trades + more) == FillsOf(trades) + FillsOf(more)
  {
  }

  /** Whatever a candle makes the broker trade is a proper fill. */
  lemma NewFillsAreValid(config: Config, ticks: seq<Tick>, candle: Candle)
    requires config.Valid() && Play(config, ticks).Some?
    requires ValidateEvent(config, config.instrument, config.asset, candle).None?
    ensures AllValid(FillsOf(OnCandle(config, Play(config, ticks).value.state, candle).trades))
  {
    hide Play, OnCandle, WellFormed, CashFlow, NetQuantity, Charged;
    RunConserves(config, ticks);
    var run := Play(config, ticks).value;
    CandleConserves(config, run.state, run.trades, candle);
    var more := OnCandle(config, run.state, candle).trades;
    forall i | 0 <= i < |more| ensures more[i].fill.Valid() {
      assert (run.trades + more)[|run.trades| + i] == more[i];
    }
  }

  lemma SameEquity(s: State, s': State)
    requires s'.cash == s.cash && s'.position == s.position && s'.lastPrice == s.lastPrice
    ensures Equity(s') == Equity(s)
  {
  }

  lemma AcceptedEvent(config: Config, instrument: string, asset: string, candle: Candle)
    requires config.Valid() && ValidateEvent(config, instrument, asset, candle).None?
    ensures ValidateEvent(config, config.instrument, config.asset, candle).None?
  {
    hide Aligned;
  }

  /** What the figures of a finished run say about the account. */
  ghost predicate Accounts(config: Config, ticks: seq<Tick>, s: State, report: Report)
    requires config.Valid()
  {
    var m, fills := report.metrics, FillsOf(report.trades);
    && m.finalEquity == Equity(s) && m.totalPnL == Equity(s) - config.initialCash
    && AllValid(fills)
    && s.position >= 0.0 && (CoarseGrid(config) ==> s.cash >= 0.0)
    && Abs(m.totalPnL - (m.realized + m.unrealized - s.commissions)) <= RoundingBound(fills)
    && (ExactAverages(FLAT, fills) ==> m.totalPnL == m.realized + m.unrealized - s.commissions)
    && Drawdowns.IsLargestFall(m.maxDrawdown, Drawdowns.Curve(config.initialCash, EquitiesOf(config, ticks)))
  }

  lemma EmptyTrades()
    ensures FillsOf([]) == [] && CandlesOf([]) == []
  {
  }

  lemma EmptyRun(config: Config)
    requires config.Valid()
    ensures Play(config, []) == Some(Run(Initial(config), [])) && Equity(Initial(config)) == config.initialCash
    ensures FillsOf([]) == [] && FoldFills(FLAT, []) == FLAT && RoundingBound([]) >= 0.0
  {
  }

  lemma FinalFigures(config: Config, ticks: seq<Tick>, s: State, report: Report)
    requires config.Valid() && Play(config, ticks) == Some(Run(s, report.trades))
    requires AllValid(FillsOf(report.trades))
    requires report.metrics.finalEquity == Equity(s) && report.metrics.totalPnL == Equity(s) - config.initialCash
    requires s.lastPrice.Some? ==>
               report.metrics.realized + report.metrics.unrealized == MarkedValue(FoldFills(FLAT,
                   FillsOf(report.trades)), s.lastPrice.value)
    requires report.metrics.realized == FoldFills(FLAT, FillsOf(report.trades)).realized
    requires s.lastPrice.None? ==> report.metrics.unrealized == 0.0
    requires Drawdowns.IsLargestFall(report.metrics.maxDrawdown, Drawdowns.Curve(config.initialCash,
        EquitiesOf(config, ticks)))
    ensures Accounts(config, ticks, s, report)
  {
    hide Play, FillsOf, CashFlow, NetQuantity, FoldFills, MarkedValue, AveragedVolume, ExactAverages, AllValid,
         CoarseGrid, Drawdowns.IsLargestFall;
    RunConserves(config, ticks);
    if ticks == [] {
      EmptyRun(config);
    } else {
      EquityIdentity(config, ticks);
    }
  }

  lemma {:induction false} OneMoreSignal(world: World, candles: seq<Candle>, trades: seq<Trade>,
                                         snapshot: PortfolioSnapshot, signals: seq<Signal>, i: nat)
    requires i < |signals|
    ensures var request := RequestForSignal(world.name, signals[i]);
            var before := Allowed(world, candles, trades, snapshot, signals[..i]);
            Allowed(world, candles, trades, snapshot, signals[..i + 1]) ==
            if world.risk(candles, trades, signals[i], snapshot) == Allow && request.Some? then before + [request.value]
            else before
  {
    assert signals[..i + 1][..i] == signals[..i];
  }

  /** Evaluates the signals of one event and submits exactly those the risk check allows. */
  method SubmitSignals(world: World, broker: SimulatedBroker, candles: seq<Candle>, trades: seq<Trade>,
                       signals: seq<Signal>)
    returns (r: Result<nat, RunError>, ghost requests: seq<Request>)
    requires broker.Valid()
    modifies broker`orders, broker`orderPayload
    ensures broker.Valid()
    ensures r.Ok? ==> SubmitAll(broker.config, old(broker.State()), requests) == Ok(broker.State())
    ensures r.Ok? ==> requests == Allowed(world, candles, trades, SnapshotOf(old(broker.State())), signals)
    ensures r.Ok? ==> r.value + |requests| == |signals|
    ensures r.Ok? ==> exists at :: Picks(world, candles, trades, SnapshotOf(old(broker.State())), signals, requests, at)
  {
    hide WellFormed, Broker.Submit, Allowed, Picks, RequestForSignal;
    ghost var before := broker.State();
    requests := [];
    var rejections := 0;
    NothingAllowed(world, candles, trades, SnapshotOf(before));
    for i := 0 to |signals|
      invariant broker.Valid()
      invariant SubmitAll(broker.config, before, requests) == Ok(broker.State())
      invariant rejections + |requests| == i
      invariant SnapshotOf(broker.State()) == SnapshotOf(before)
      invariant requests == Allowed(world, candles, trades, SnapshotOf(before), signals[..i])
    {
      OneMoreSignal(world, candles, trades, SnapshotOf(before), signals, i);
      var snapshot := broker.Snapshot();
      var decision := world.risk(candles, trades, signals[i], snapshot);
      if decision.RiskError? {
        return Err(RiskFailed), requests;
      }
      if decision.Reject? {
        rejections := rejections + 1;
        continue;
      }
      var request := RequestForSignal(world.name, signals[i]);
      if request.None? {
        return Err(UnsupportedAction), requests;
      }
      var submitted := broker.Submit(request.value);
      if submitted.Err? {
        return Err(BrokerError(submitted.error)), requests;
      }
      SameEquity(before, broker.State());
      assert (requests + [request.value])[..|requests|] == requests;
      requests := requests + [request.value];
    }
    assert signals[..|signals|] == signals;
    ghost var at := AllowedArePicked(world, candles, trades, SnapshotOf(before), signals);
    assert Picks(world, candles, trades, SnapshotOf(before), signals, requests, at);
    r := Ok(rejections);
  }

  lemma NothingAllowed(world: World, candles: seq<Candle>, trades: seq<Trade>, snapshot: PortfolioSnapshot)
    ensures Allowed(world, candles, trades, snapshot, []) == []
  {
  }

  /** Allowed requests carry the cursor of their signals and one name. */
  lemma {:induction false} AllowedAreStamped(world: World, candles: seq<Candle>, trades: seq<Trade>,
                                             snapshot: PortfolioSnapshot, drafts: seq<Draft>, candle: Candle, n: nat)
    requires n <= |drafts|
    ensures Stamped(Tick(candle, Allowed(world, candles, trades, snapshot, StampAll(drafts, candle.end)[..n])))
  {
    var signals := StampAll(drafts, candle.end);
    if n > 0 {
      AllowedAreStamped(world, candles, trades, snapshot, drafts, candle, n - 1);
      OneMoreSignal(world, candles, trades, snapshot, signals, n - 1);
    }
  }

  method Stamp(drafts: seq<Draft>, cursor: int) returns (signals: seq<Signal>)
    ensures signals == StampAll(drafts, cursor)
  {
    signals := [];
    for i := 0 to |drafts|
      invariant |signals| == i && forall j :: 0 <= j < i ==> signals[j] == Signal(drafts[j], cursor)
    {
      signals := signals + [Signal(drafts[i], cursor)];
    }
  }

  /** One turn of the loop after the candle was read and the clock advanced. */
  method Turn(world: World, broker: SimulatedBroker, report: Reports.Report, meta: D.Meta, candle: Candle,
              trades: seq<Trade>, candles: seq<Candle>, ghost ticks: seq<Tick>)
    returns (r: Result<(seq<Trade>, nat), RunError>, ghost tick: Tick)
    requires broker.Valid() && report.Valid() && report.asset == broker.config.asset
    requires Play(broker.config, ticks) == Some(Run(broker.State(), trades)) && candles == CandlesOf(ticks)
    requires report.fills == FillsOf(trades) && report.equities == EquitiesOf(broker.config, ticks)
    modifies broker, report
    ensures broker.Valid() && report.Valid()
    ensures r.Ok? ==>
              && tick.candle == candle && Stamped(tick)
              && tick.requests ==
                 RequestsFor(world, broker.config, Run(old(broker.State()), trades), CandlesOf(ticks + [tick]))
              && Play(broker.config, ticks + [tick]) == Some(Run(broker.State(), r.value.0))
              && report.fills == FillsOf(r.value.0)
              && report.equities == EquitiesOf(broker.config, ticks + [tick])
  {
    hide WellFormed, FoldFills, TallyOf, Drawdowns.Track, AllValid, OnCandle, SubmitAll, ValidateEvent, Equity, Play,
         FillsOf, Allowed, Stamped;
    tick := Tick(candle, []);
    var executed := broker.OnMarketEvent(CandleClose(meta.instrument, meta.asset, candle));
    if executed.Err? {
      return Err(BrokerError(executed.error)), tick;
    }
    AcceptedEvent(broker.config, meta.instrument, meta.asset, candle);
    NewFillsAreValid(broker.config, ticks, candle);
    ghost var settled := broker.State();
    var snapshot := broker.Snapshot();
    report.Observe(FillsOf(executed.value), snapshot.equity, broker.config.asset);
    var drafts := world.strategy(candles + [candle]);
    if drafts.None? {
      return Err(StrategyFailed), tick;
    }
    var all := trades + executed.value;
    AppendFills(trades, executed.value);
    var signals := Stamp(drafts.value, candle.end);
    var submitted;
    ghost var requests;
    submitted, requests := SubmitSignals(world, broker, candles + [candle], all, signals);
    if submitted.Err? {
      return Err(submitted.error), tick;
    }
    tick := Tick(candle, requests);
    assert signals[..|signals|] == signals;
    AllowedAreStamped(world, candles + [candle], all, SnapshotOf(settled), drafts.value, candle, |signals|);
    SubmissionsMoveNoMoney(broker.config, settled, requests);
    SameEquity(settled, broker.State());
    snapshot := broker.Snapshot();
    report.ObserveEquity(snapshot.equity, broker.config.asset);
    OneMoreTick(broker.config, ticks, tick);
    r := Ok((all, submitted.value));
  }

  lemma FollowsNothing(world: World, config: Config)
    requires config.Valid()
    ensures Follows(world, config, [])
  {
  }

  lemma FollowsOneMore(world: World, config: Config, ticks: seq<Tick>, tick: Tick)
    requires config.Valid() && Follows(world, config, ticks) && Play(config, ticks).Some?
    requires tick.requests == RequestsFor(world, config, Play(config, ticks).value, CandlesOf(ticks + [tick]))
    ensures Follows(world, config, ticks + [tick])
  {
    hide Play, RequestsFor;
    var more := ticks + [tick];
    forall k | 0 <= k < |more| && Play(config, more[..k]).Some?
      ensures more[k].requests == RequestsFor(world, config, Play(config, more[..k]).value, CandlesOf(more[..k + 1]))
    {
      if k < |ticks| {
        assert more[..k] == ticks[..k] && more[..k + 1] == ticks[..k + 1];
      } else {
        assert more[..k] == ticks && more[..k + 1] == more;
      }
    }
  }

  /** The whole run. On success it is a run of the value-level broker over exactly the
      candles of the dataset, and the report's figures are what that run implies. */
  method Execute(world: World, dataset: D.CSVIterator, broker: SimulatedBroker, start: int)
    returns (r: Result<Report, RunError>, ghost ticks: seq<Tick>)
    requires dataset.Valid() && dataset.emitted == [] && dataset.read == 0
    requires broker.Valid() && broker.State() == Initial(broker.config)
    modifies dataset, broker
    ensures r.Ok? ==>
              && D.ReadAll(dataset.meta, dataset.input).Ok?
              && CandlesOf(ticks) == D.ReadAll(dataset.meta, dataset.input).value.candles
              && Paced(ticks) && Follows(world, broker.config, ticks)
              && Play(broker.config, ticks) == Some(Run(broker.State(), r.value.trades))
              && Accounts(broker.config, ticks, broker.State(), r.value)
              && forall id :: id in broker.orders ==> CalledFor(world, broker.config, ticks, broker.orders[id])
  {
    hide WellFormed, FoldFills, TallyOf, Drawdowns.Track, AllValid, PlayTick, Equity, FillsOf, D.ReadAll, Accounts,
         Stamped, Paced, Follows, RequestsFor, CalledFor;
    var now := start;
    var report := new Reports.Report(broker.config.initialCash, broker.config.asset);
    var trades: seq<Trade> := [];
    var candles: seq<Candle> := [];
    var rejections := 0;
    ticks := [];
    EmptyTrades();
    FollowsNothing(world, broker.config);
    while true
      invariant dataset.Valid() && dataset.emitted == CandlesOf(ticks) == candles && |ticks| == dataset.read
      invariant broker.Valid() && report.Valid() && report.asset == broker.config.asset &&
          report.initial == broker.config.initialCash
      invariant fresh(report)
      invariant Play(broker.config, ticks) == Some(Run(broker.State(), trades))
      invariant report.fills == FillsOf(trades) && report.equities == EquitiesOf(broker.config, ticks)
      invariant (forall i :: 0 <= i < |ticks| ==> Stamped(ticks[i])) && Follows(world, broker.config, ticks)
      decreases |dataset.input| - dataset.read
    {
      var event := dataset.Next();
      if event.EndOfFile? {
        break;
      }
      if event.Failed? {
        return Err(BadDataset(event.error)), ticks;
      }
      if event.candle.end < now {
        return Err(ClockBackwards), ticks;
      }
      now := event.candle.end;
      var turn;
      ghost var tick;
      turn, tick := Turn(world, broker, report, dataset.meta, event.candle, trades, candles, ticks);
      if turn.Err? {
        return Err(turn.error), ticks;
      }
      FollowsOneMore(world, broker.config, ticks, tick);
      trades := turn.value.0;
      rejections := rejections + turn.value.1;
      candles := candles + [event.candle];
      ticks := ticks + [tick];
    }
    assert dataset.input[..dataset.read] == dataset.input;
    TicksArePaced(dataset.meta, dataset.input, ticks);
    var snapshot := broker.Snapshot();
    var metrics := report.Finalize(snapshot.equity, snapshot.lastPrice);
    r := Ok(Report(metrics, trades, rejections));
    FinalFigures(broker.config, ticks, broker.State(), r.value);
    forall id | id in broker.orders ensures CalledFor(world, broker.config, ticks, broker.orders[id]) {
      OrdersAreCalledFor(world, broker.config, ticks, id);
    }
  }
}
