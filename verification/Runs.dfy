/** Whole backtest runs on values: a run is a sequence of candles, each followed by the
    orders that the strategy and the risk check let through. */
module Runs {
  import opened Decimals
  import opened Accounting
  import opened Pricing
  import opened Broker
  import opened BrokerLemmas
  import opened OrderLife

  /** One turn of the event loop: the candle, then the requests submitted after it. */
  datatype Tick = Tick(candle: Candle, requests: seq<Request>)

  datatype Run = Run(state: State, trades: seq<Trade>)

  function SubmitAll(config: Config, s: State, requests: seq<Request>): Result<State, Error>
    requires config.Valid()
  {
    if requests == [] then Ok(s)
    else
      var before := SubmitAll(config, s, requests[..|requests| - 1]);
      if before.Err? then before else Submit(config, before.value, requests[|requests| - 1])
  }

  lemma {:induction false} SubmitWellFormed(config: Config, s: State, requests: seq<Request>)
    requires config.Valid() && WellFormed(config, s)
    ensures var r := SubmitAll(config, s, requests); r.Ok? ==> WellFormed(config, r.value)
  {
    if requests != [] {
      SubmitWellFormed(config, s, requests[..|requests| - 1]);
      hide Aligned;
    }
  }

  /** One turn; absent when the candle is refused, a fill fails or a request conflicts. */
  ghost function PlayTick(config: Config, run: Run, tick: Tick): (r: Option<Run>)
    requires config.Valid() && WellFormed(config, run.state)
    ensures r.Some? ==> WellFormed(config, r.value.state)
  {
    hide WellFormed, Settle, Submit;
    if ValidateEvent(config, config.instrument, config.asset, tick.candle).Some? then None
    else
      var settled := OnCandle(config, run.state, tick.candle);
      if settled.failed then None
      else
        var submitted := SubmitAll(config, settled.state, tick.requests);
        SubmitWellFormed(config, settled.state, tick.requests);
        if submitted.Err? then None else Some(Run(submitted.value, run.trades + settled.trades))
  }

  ghost function Play(config: Config, ticks: seq<Tick>): (r: Option<Run>)
    requires config.Valid()
    ensures r.Some? ==> WellFormed(config, r.value.state)
  {
    if ticks == [] then Some(Run(Initial(config), []))
    else
      var before := Play(config, ticks[..|ticks| - 1]);
      if before.None? then None else PlayTick(config, before.value, ticks[|ticks| - 1])
  }

  /** Candles do not overlap, and every request is stamped with the end of the candle that
      caused it and named by one identifier. */
  predicate Paced(ticks: seq<Tick>) {
    && (forall i :: 0 < i < |ticks| ==> ticks[i - 1].candle.end <= ticks[i].candle.start)
    && (forall i :: 0 <= i < |ticks| ==> Stamped(ticks[i]))
  }

  predicate Stamped(tick: Tick) {
    forall q :: q in tick.requests ==> q.cursor == tick.candle.end && q.orderId == q.clientId
  }

  /** Orders, requests and client identifiers share their names. */
  predicate OneName(s: State) {
    && s.orders.Keys == s.payloads.Keys
    && forall id :: id in s.payloads ==>
         s.payloads[id].orderId == id && s.payloads[id].clientId == id && s.orders[id].clientId == id
  }

  /** Submitting under fresh names adds accepted orders and changes no existing one. */
  lemma {:induction false} SubmissionsAddOnly(config: Config, s: State, requests: seq<Request>, id: Id)
    requires config.Valid() && OneName(s)
    requires forall q :: q in requests ==> q.orderId == q.clientId
    requires SubmitAll(config, s, requests).Ok?
    ensures var s' := SubmitAll(config, s, requests).value;
            && OneName(s')
            && (id in s.orders ==>
                 id in s'.orders && s'.orders[id] == s.orders[id] && s'.payloads[id] == s.payloads[id])
            && (id !in s.orders && id in s'.orders ==>
                  s'.payloads[id] in requests && s'.orders[id] == NewOrder(s'.payloads[id]))
  {
    if requests != [] {
      hide ValidateRequest;
      SubmissionsAddOnly(config, s, requests[..|requests| - 1], id);
    }
  }

  ghost function Made(config: Config, run: Run, tick: Tick, id: Id): seq<Trade>
    requires config.Valid() && WellFormed(config, run.state)
  {
    TradesFor(OnCandle(config, run.state, tick.candle).trades, id)
  }

  lemma {:induction false} TradesJoin(a: seq<Trade>, b: seq<Trade>, id: Id)
    ensures TradesFor(a + b, id) == TradesFor(a, id) + TradesFor(b, id)
  {
    if b == [] {
      assert a + b == a;
    } else {
      var init := b[..|b| - 1];
      TradesJoin(a, init, id);
      assert (a + b)[..|a + b| - 1] == a + init;
    }
  }

  /** What a candle does to one order of the broker. */
  lemma {:induction false} CandleFate(config: Config, s: State, candle: Candle, id: Id)
    requires config.Valid() && WellFormed(config, s) && id in s.orders
    ensures var r := OnCandle(config, s, candle);
            var o, o', made := s.orders[id], r.state.orders[id], TradesFor(r.trades, id);
            && r.state.orders.Keys == s.orders.Keys && r.state.payloads == s.payloads
            && (!(o.status == Accepted && Due(config, s, id, candle)) ==> o' == o && made == [])
            && (o.status == Accepted && Due(config, s, id, candle) && !r.failed ==>
                  Executed(o, o', made, candle) || Declined(o, o', made, candle))
  {
    hide SettleAll, RawFill, Aligned, TradesFor, Executed, Declined;
    var ids := SortedIds(OpenIds(s));
    assert forall i :: 0 <= i < |ids| ==> ids[i] in ids;
    var marked := s.(lastPrice := Some(candle.close));
    OrderFate(config, marked, ids, candle, id);
    SameDue(config, s, marked, id, candle);
  }

  /** What one turn does to one order. */
  lemma {:induction false} TickFate(config: Config, run: Run, tick: Tick, id: Id)
    requires config.Valid() && WellFormed(config, run.state) && OneName(run.state) && Stamped(tick)
    requires PlayTick(config, run, tick).Some?
    ensures var next, made := PlayTick(config, run, tick).value, Made(config, run, tick, id);
            && OneName(next.state)
            && TradesFor(next.trades, id) == TradesFor(run.trades, id) + made
            && (id in run.state.orders ==>
                  && id in next.state.orders && next.state.payloads[id] == run.state.payloads[id]
                  && var o, o' := run.state.orders[id], next.state.orders[id];
                     if o.status == Accepted && Due(config, run.state, id, tick.candle) then
                       Executed(o, o', made, tick.candle) || Declined(o, o', made, tick.candle)
                     else o' == o && made == [])
            && (id !in run.state.orders ==> made == [])
            && (id !in run.state.orders && id in next.state.orders ==>
                  && next.state.payloads[id] in tick.requests
                  && next.state.orders[id] == NewOrder(next.state.payloads[id]))
  {
    hide WellFormed, Due, Executed, Declined, SubmitAll, TradesFor, OnCandle;
    var settled := OnCandle(config, run.state, tick.candle);
    CandleKeepsNames(config, run.state, tick.candle);
    SubmissionsAddOnly(config, settled.state, tick.requests, id);
    TradesJoin(run.trades, settled.trades, id);
    if id in run.state.orders {
      CandleFate(config, run.state, tick.candle, id);
    }
  }

  lemma {:induction false} CandleKeepsNames(config: Config, s: State, candle: Candle)
    requires config.Valid() && WellFormed(config, s) && OneName(s)
    ensures var r := OnCandle(config, s, candle);
            OneName(r.state) && r.state.orders.Keys == s.orders.Keys && r.state.payloads == s.payloads
            && forall id :: id !in s.orders ==> TradesFor(r.trades, id) == []
  {
    var ids := SortedIds(OpenIds(s));
    assert forall i :: 0 <= i < |ids| ==> ids[i] in ids;
    forall id | id !in s.orders ensures TradesFor(OnCandle(config, s, candle).trades, id) == [] {
      StrangersDoNotTrade(config, s.(lastPrice := Some(candle.close)), ids, candle, id);
    }
    hide SettleAll, TradesFor, Aligned;
  }

  // ---------------------------------------------------------------------------
  // Whole runs
  // ---------------------------------------------------------------------------

  lemma {:induction false} PlayNames(config: Config, ticks: seq<Tick>)
    requires config.Valid() && Paced(ticks) && Play(config, ticks).Some?
    ensures OneName(Play(config, ticks).value.state)
  {
    if ticks != [] {
      hide PlayTick, WellFormed, Stamped;
      PlayNames(config, ticks[..|ticks| - 1]);
      TickFate(config, Play(config, ticks[..|ticks| - 1]).value, ticks[|ticks| - 1], 0);
    }
  }

  /** The order after the first `n` turns, if it exists by then. */
  ghost function OrderAfter(config: Config, ticks: seq<Tick>, n: nat, id: Id): Option<Order>
    requires config.Valid() && n <= |ticks|
  {
    var run := Play(config, ticks[..n]);
    if run.Some? && id in run.value.state.orders then Some(run.value.state.orders[id]) else None
  }

  lemma {:induction false} OrderAfterPrefix(config: Config, ticks: seq<Tick>, id: Id)
    requires config.Valid() && ticks != []
    ensures forall m {:trigger OrderAfter(config, ticks, m, id)} :: 0 <= m < |ticks| ==>
      OrderAfter(config, ticks[..|ticks| - 1], m, id) == OrderAfter(config, ticks, m, id)
  {
    forall m | 0 <= m < |ticks| ensures OrderAfter(config, ticks[..|ticks| - 1], m, id) == OrderAfter(config, ticks,
        m, id) {
      assert ticks[..|ticks| - 1][..m] == ticks[..m];
    }
  }

  /** The order is unknown after each of the first `n` turns. */
  ghost predicate Unseen(config: Config, ticks: seq<Tick>, n: nat, id: Id)
    requires config.Valid() && n <= |ticks|
  {
    forall m :: 0 <= m <= n ==> OrderAfter(config, ticks, m, id) == None
  }

  /** An order is unknown through turn `k`, whose requests create it; it stands untouched
      through turn `j`, when a later candle fills or rejects it; then it never changes. When
      `j` is the length of the run the order is still waiting. */
  ghost predicate History(config: Config, ticks: seq<Tick>, id: Id, k: nat, j: nat, q: Request)
    requires config.Valid()
  {
    && k < j <= |ticks| && q in ticks[k].requests && q.orderId == id
    && Unseen(config, ticks, k, id)
    && (forall m :: k < m <= j ==> OrderAfter(config, ticks, m, id) == Some(NewOrder(q)))
    && (forall m :: j < m <= |ticks| ==> OrderAfter(config, ticks, m, id) == OrderAfter(config, ticks, |ticks|, id))
    && (q.limit.None? && k + 1 < |ticks| ==> j == k + 1)
    && (j < |ticks| ==> ticks[k].candle.end <= ticks[j].candle.start)
  }

  /** The trades an order has led to: one on the candle that filled it, none otherwise. */
  ghost predicate TradedOnce(run: Run, ticks: seq<Tick>, id: Id, j: nat, q: Request)
    requires id in run.state.orders && j <= |ticks|
  {
    var order, mine := run.state.orders[id], TradesFor(run.trades, id);
    if j == |ticks| then order == NewOrder(q) && mine == []
    else Executed(NewOrder(q), order, mine, ticks[j].candle) || Declined(NewOrder(q), order, mine, ticks[j].candle)
  }

  lemma DueForRequest(config: Config, s: State, id: Id, candle: Candle, q: Request)
    requires config.Valid() && WellFormed(config, s) && id in s.orders && q.clientId == id
    requires id in s.payloads && s.payloads[id] == q && s.orders[id] == NewOrder(q)
    ensures Due(config, s, id, candle) ==> q.cursor <= candle.start
    ensures q.limit.None? && q.cursor <= candle.start ==> Due(config, s, id, candle)
  {
    hide Aligned;
  }

  /** One more turn leaves a settled order alone, and decides a waiting one or not. */
  lemma {:induction false} HistoryStep(config: Config, ticks: seq<Tick>, id: Id, k: nat, j: nat,
      q: Request) returns (j': nat)
    requires config.Valid() && Paced(ticks) && ticks != [] && Play(config, ticks).Some?
    requires History(config, ticks[..|ticks| - 1], id, k, j, q)
    requires OneName(Play(config, ticks[..|ticks| - 1]).value.state) &&
        id in Play(config, ticks[..|ticks| - 1]).value.state.payloads
    requires q == Play(config, ticks[..|ticks| - 1]).value.state.payloads[id]
    requires TradedOnce(Play(config, ticks[..|ticks| - 1]).value, ticks[..|ticks| - 1], id, j, q)
    ensures History(config, ticks, id, k, j', q)
    ensures id in Play(config, ticks).value.state.orders && id in Play(config, ticks).value.state.payloads
    ensures q == Play(config, ticks).value.state.payloads[id]
    ensures TradedOnce(Play(config, ticks).value, ticks, id, j', q)
  {
    hide PlayTick, WellFormed, Due, TradesFor, Made, Stamped;
    var n := |ticks| - 1;
    var init, last := ticks[..n], ticks[n];
    var run := Play(config, init).value;
    assert ticks[..n + 1] == ticks && init[..n] == init;
    OrderAfterPrefix(config, ticks, id);
    assert OrderAfter(config, ticks, n, id) == OrderAfter(config, init, n, id);
    TickFate(config, run, last, id);
    assert Stamped(ticks[k]) && ticks[k] == init[k];
    if j == n {
      RequestStamp(ticks[k], q);
      DueForRequest(config, run.state, id, last.candle, q);
      j' := if Due(config, run.state, id, last.candle) then n else n + 1;
    } else {
      j' := j;
    }
  }

  lemma RequestStamp(tick: Tick, q: Request)
    requires Stamped(tick) && q in tick.requests
    ensures q.cursor == tick.candle.end && q.orderId == q.clientId
  {
  }

  /** The run before the last turn, and what the last turn starts from. */
  lemma LastTurn(config: Config, ticks: seq<Tick>) returns (run: Run)
    requires config.Valid() && Paced(ticks) && ticks != [] && Play(config, ticks).Some?
    ensures Paced(ticks[..|ticks| - 1]) && Stamped(ticks[|ticks| - 1])
    ensures Play(config, ticks[..|ticks| - 1]) == Some(run) && OneName(run.state)
    ensures PlayTick(config, run, ticks[|ticks| - 1]) == Play(config, ticks)
  {
    hide PlayTick, WellFormed, Stamped, OneName;
    run := Play(config, ticks[..|ticks| - 1]).value;
    PlayNames(config, ticks[..|ticks| - 1]);
  }

  lemma UnseenExtends(config: Config, ticks: seq<Tick>, id: Id)
    requires config.Valid() && ticks != [] && Unseen(config, ticks[..|ticks| - 1], |ticks| - 1, id)
    ensures Unseen(config, ticks, |ticks| - 1, id)
    ensures OrderAfter(config, ticks, |ticks|, id) == None ==> Unseen(config, ticks, |ticks|, id)
  {
    hide OrderAfter;
    OrderAfterPrefix(config, ticks, id);
  }

  lemma FinalOrder(config: Config, ticks: seq<Tick>, id: Id)
    requires config.Valid() && Play(config, ticks).Some?
    ensures var orders := Play(config, ticks).value.state.orders;
            OrderAfter(config, ticks, |ticks|, id) == if id in orders then Some(orders[id]) else None
  {
    hide Play;
    assert ticks[..|ticks|] == ticks;
  }

  /** A name the run does not know has never been known, and has never traded. */
  lemma {:induction false} UnknownSoFar(config: Config, ticks: seq<Tick>, id: Id)
    requires config.Valid() && Paced(ticks) && Play(config, ticks).Some?
    requires id !in Play(config, ticks).value.state.orders
    ensures Unseen(config, ticks, |ticks|, id)
    ensures TradesFor(Play(config, ticks).value.trades, id) == []
  {
    FinalOrder(config, ticks, id);
    if ticks != [] {
      hide Play, PlayTick, WellFormed, Due, TradesFor, Made, Stamped, Paced, Executed, Declined, OneName, NewOrder,
           OrderAfter, Unseen;
      var run := LastTurn(config, ticks);
      TickFate(config, run, ticks[|ticks| - 1], id);
      UnknownSoFar(config, ticks[..|ticks| - 1], id);
      UnseenExtends(config, ticks, id);
    }
  }

  lemma {:induction false} FirstAppearance(config: Config, ticks: seq<Tick>, id: Id)
    requires config.Valid() && Paced(ticks) && ticks != [] && Play(config, ticks).Some?
    requires id !in Play(config, ticks[..|ticks| - 1]).value.state.orders
    requires id in Play(config, ticks).value.state.orders
    ensures id in Play(config, ticks).value.state.payloads
    ensures var q := Play(config, ticks).value.state.payloads[id];
            History(config, ticks, id, |ticks| - 1, |ticks|, q) &&
            TradedOnce(Play(config, ticks).value, ticks, id, |ticks|, q)
  {
    hide Play, PlayTick, WellFormed, Due, TradesFor, Made, Stamped, Paced, Executed, Declined, OrderAfter, Unseen;
    var run := LastTurn(config, ticks);
    TickFate(config, run, ticks[|ticks| - 1], id);
    UnknownSoFar(config, ticks[..|ticks| - 1], id);
    UnseenExtends(config, ticks, id);
    FinalOrder(config, ticks, id);
  }

  /** No look-ahead: every order of every run has such a history. In particular it trades
      at most once, at the open of a candle that starts no earlier than the end of the
      candle that caused it, and a market order is decided on exactly the next candle. */
  lemma {:induction false} OrderHistory(config: Config, ticks: seq<Tick>, id: Id) returns (k: nat, j: nat, q: Request)
    requires config.Valid() && Paced(ticks) && Play(config, ticks).Some?
    requires id in Play(config, ticks).value.state.orders
    ensures History(config, ticks, id, k, j, q)
    ensures id in Play(config, ticks).value.state.payloads && q == Play(config, ticks).value.state.payloads[id]
    ensures TradedOnce(Play(config, ticks).value, ticks, id, j, q)
  {
    hide PlayTick, WellFormed, Due, Executed, Declined, TradesFor, Made, History, TradedOnce;
    var n := |ticks| - 1;
    var init, last := ticks[..n], ticks[n];
    var run := Play(config, init).value;
    PlayNames(config, init);
    if id in run.state.orders {
      k, j, q := OrderHistory(config, init, id);
      j := HistoryStep(config, ticks, id, k, j, q);
    } else {
      FirstAppearance(config, ticks, id);
      k, j, q := n, n + 1, Play(config, ticks).value.state.payloads[id];
    }
  }

  // ---------------------------------------------------------------------------
  // Money over whole runs
  // ---------------------------------------------------------------------------

  lemma {:induction false} SubmissionsMoveNoMoney(config: Config, s: State, requests: seq<Request>)
    requires config.Valid() && SubmitAll(config, s, requests).Ok?
    ensures var s' := SubmitAll(config, s, requests).value;
            s' == s.(orders := s'.orders, payloads := s'.payloads)
  {
    if requests != [] {
      hide ValidateRequest;
      SubmissionsMoveNoMoney(config, s, requests[..|requests| - 1]);
    }
  }

  lemma {:induction false} CandleConserves(config: Config, s: State, trades: seq<Trade>, candle: Candle)
    requires config.Valid() && WellFormed(config, s) && Conserved(config, s, trades) && OnGrid(config, candle.open)
    ensures var r := OnCandle(config, s, candle); Conserved(config, r.state, trades + r.trades)
  {
    var ids := SortedIds(OpenIds(s));
    assert forall i :: 0 <= i < |ids| ==> ids[i] in ids;
    hide SettleAll, CashFlow, NetQuantity, Charged, Slippage, Aligned, FillsOf, OnGrid;
    SettlementConserves(config, s.(lastPrice := Some(candle.close)), trades, ids, candle);
  }

  lemma {:induction false} CandleStaysSolvent(config: Config, s: State, candle: Candle)
    requires config.Valid() && WellFormed(config, s) && CoarseGrid(config) && s.cash >= 0.0
    requires OnGrid(config, candle.open)
    ensures OnCandle(config, s, candle).state.cash >= 0.0
  {
    var ids := SortedIds(OpenIds(s));
    assert forall i :: 0 <= i < |ids| ==> ids[i] in ids;
    hide SettleAll, Aligned, CoarseGrid;
    SettlementStaysSolvent(config, s.(lastPrice := Some(candle.close)), ids, candle);
  }

  /** In every reachable state cash is the initial cash less signed notionals and
      commissions, the position is the net quantity traded, and neither can go negative
      (cash, on a grid whose notionals need no rounding). */
  lemma {:induction false} RunConserves(config: Config, ticks: seq<Tick>)
    requires config.Valid() && Play(config, ticks).Some?
    ensures var run := Play(config, ticks).value;
            && Conserved(config, run.state, run.trades)
            && run.state.position >= 0.0
            && (CoarseGrid(config) ==> run.state.cash >= 0.0)
            && run.state.lastPrice == if ticks == [] then None else Some(ticks[|ticks| - 1].candle.close)
  {
    hide WellFormed, OnCandle, SubmitAll, CashFlow, NetQuantity, Charged, Slippage, FillsOf, CoarseGrid, Aligned;
    if ticks == [] {
      NothingTraded();
    } else {
      var last, run := ticks[|ticks| - 1], Play(config, ticks[..|ticks| - 1]).value;
      RunConserves(config, ticks[..|ticks| - 1]);
      CandleConserves(config, run.state, run.trades, last.candle);
      if CoarseGrid(config) {
        CandleStaysSolvent(config, run.state, last.candle);
      }
      CandleMarks(config, run.state, last.candle);
      SubmissionsMoveNoMoney(config, OnCandle(config, run.state, last.candle).state, last.requests);
    }
  }

  lemma NothingTraded()
    ensures FillsOf([]) == [] && CashFlow([]) == 0.0 && NetQuantity([]) == 0.0 && Charged([]) == 0.0 &&
        Slippage([]) == 0.0
  {
  }

  lemma SettleKeepsMark(config: Config, before: Settlement, id: Id, candle: Candle)
    requires config.Valid() && WellFormed(config, before.state) && id in before.state.orders
    ensures Settle(config, before, id, candle).state.lastPrice == before.state.lastPrice
  {
    hide FillPrice, Commission, Product, RawFill, Aligned;
  }

  lemma {:induction false} SettlementKeepsMark(config: Config, s: State, ids: seq<Id>, candle: Candle)
    requires config.Valid() && WellFormed(config, s)
    requires forall i :: 0 <= i < |ids| ==> ids[i] in s.orders
    ensures SettleAll(config, s, ids, candle).state.lastPrice == s.lastPrice
  {
    hide Settle, WellFormed;
    if ids != [] {
      SettlementKeepsMark(config, s, ids[..|ids| - 1], candle);
      SettleKeepsMark(config, SettleAll(config, s, ids[..|ids| - 1], candle), ids[|ids| - 1], candle);
    }
  }

  lemma CandleMarks(config: Config, s: State, candle: Candle)
    requires config.Valid() && WellFormed(config, s)
    ensures OnCandle(config, s, candle).state.lastPrice == Some(candle.close)
  {
    var ids := SortedIds(OpenIds(s));
    assert forall i :: 0 <= i < |ids| ==> ids[i] in ids;
    hide SettleAll, Aligned;
    SettlementKeepsMark(config, s.(lastPrice := Some(candle.close)), ids, candle);
  }

  /** Cash plus the position at the last close, as the portfolio snapshot reports it. */
  function Equity(s: State): real {
    if s.lastPrice.None? then s.cash else s.cash + s.position * s.lastPrice.value
  }

  /** The end-to-end identity: what the account gained is realized plus unrealized profit
      less every commission, exactly when averages divide exactly and otherwise within the
      rounding of the averages. */
  lemma EquityIdentity(config: Config, ticks: seq<Tick>)
    requires config.Valid() && ticks != [] && Play(config, ticks).Some?
    ensures var run := Play(config, ticks).value;
            var fills, mark := FillsOf(run.trades), ticks[|ticks| - 1].candle.close;
            var gained := Equity(run.state) - config.initialCash;
            && AllValid(fills)
            && var profit := MarkedValue(FoldFills(FLAT, fills), mark) - Charged(run.trades);
               && Abs(gained - profit) <= RoundingBound(fills)
               && (ExactAverages(FLAT, fills) ==> gained == profit)
  {
    hide Play, CashFlow, NetQuantity, Charged, FoldFills, MarkedValue, RoundingBound, ExactAverages, AllPriced,
         Slippage;
    RunConserves(config, ticks);
    var run := Play(config, ticks).value;
    MarkedProfit(FillsOf(run.trades), ticks[|ticks| - 1].candle.close);
    SameProduct(run.state.position, NetQuantity(FillsOf(run.trades)), ticks[|ticks| - 1].candle.close);
  }
}
