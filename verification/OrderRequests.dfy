/** Runs in terms of the requests alone: what an order asks for, where it was filled and why
    it still waits. */
module OrderRequests {
  import opened Decimals
  import opened Accounting
  import opened Pricing
  import opened Broker
  import opened BrokerLemmas
  import opened OrderLife
  import opened Runs

  /** The trade is what the request asked for: its side and quantity, at the open of a candle
      where the request allows it and at the limit otherwise, at the configured rates. */
  predicate TradeFits(config: Config, trade: Trade, q: Request, candle: Candle)
    requires config.Valid()
  {
    && trade.order == q.orderId && trade.executedAt == candle.start
    && trade.fill.side == q.side && trade.fill.quantity == q.quantity
    && candle.low <= trade.raw <= candle.high
    && (q.limit.Some? ==> NoWorse(trade.raw, q.limit.value, q.side))
    && (q.limit.None? || NoWorse(candle.open, q.limit.value, q.side) ==> trade.raw == candle.open)
    && (q.limit.Some? && !NoWorse(candle.open, q.limit.value, q.side) ==> trade.raw == q.limit.value)
    && Priced(config, trade)
  }

  /** A candle decided the order: filled by one fitting trade, or rejected without one. */
  predicate Decided(config: Config, o: Order, trades: seq<Trade>, q: Request, candle: Candle)
    requires config.Valid()
  {
    && OnTerms(o, q) && o.updatedAt == candle.start && !OutOfReach(q.side, q.limit, candle)
    && if o.status == Filled then o.filled == q.quantity && |trades| == 1 && TradeFits(config, trades[0], q, candle)
       else o.status == Rejected && o.filled == 0.0 && trades == []
  }

  /** The order waits on these terms after the first `m` turns. */
  ghost predicate WaitsAfter(config: Config, ticks: seq<Tick>, m: nat, id: Id, q: Request)
    requires config.Valid() && m <= |ticks|
  {
    OrderAfter(config, ticks, m, id).Some? && Waits(OrderAfter(config, ticks, m, id).value, q)
  }

  lemma PrefixPlays(config: Config, ticks: seq<Tick>, m: nat)
    requires config.Valid() && Paced(ticks) && Play(config, ticks).Some? && m <= |ticks|
    ensures Paced(ticks[..m]) && Play(config, ticks[..m]).Some?
    decreases |ticks| - m
  {
    hide PlayTick, Stamped, WellFormed;
    if m == |ticks| {
      assert ticks[..m] == ticks;
    } else {
      PrefixPlays(config, ticks, m + 1);
      assert ticks[..m + 1][..m] == ticks[..m];
    }
  }

  /** One turn of a run, seen from the state before it. */
  lemma TurnOf(config: Config, ticks: seq<Tick>, m: nat) returns (run: Run)
    requires config.Valid() && Paced(ticks) && Play(config, ticks).Some? && m < |ticks|
    ensures Play(config, ticks[..m]) == Some(run) && WellFormed(config, run.state) && OneName(run.state)
    ensures Stamped(ticks[m]) && PlayTick(config, run, ticks[m]).Some?
    ensures Play(config, ticks[..m + 1]) == PlayTick(config, run, ticks[m])
    ensures ticks[m].candle.Valid()
  {
    PrefixPlays(config, ticks, m);
    PrefixPlays(config, ticks, m + 1);
    hide PlayTick, Stamped, WellFormed, OneName;
    PlayNames(config, ticks[..m]);
    assert ticks[..m + 1][..m] == ticks[..m] && ticks[..m + 1][m] == ticks[m];
    run := Play(config, ticks[..m]).value;
    TakenCandle(config, run, ticks[m]);
  }

  lemma TakenCandle(config: Config, run: Run, tick: Tick)
    requires config.Valid() && WellFormed(config, run.state) && PlayTick(config, run, tick).Some?
    ensures tick.candle.Valid()
  {
    hide WellFormed, OnCandle, SubmitAll, Aligned;
  }

  lemma {:induction false} CandlesFollow(config: Config, ticks: seq<Tick>, k: nat, m: nat)
    requires config.Valid() && Paced(ticks) && Play(config, ticks).Some? && k < m < |ticks|
    ensures ticks[k].candle.end <= ticks[m].candle.start
  {
    hide Play, Stamped;
    if k < m - 1 {
      CandlesFollow(config, ticks, k, m - 1);
      var run := TurnOf(config, ticks, m - 1);
    }
  }

  /** The request of an order never changes. */
  lemma {:induction false} RequestStays(config: Config, ticks: seq<Tick>, m: nat, id: Id)
    requires config.Valid() && Paced(ticks) && Play(config, ticks).Some? && m <= |ticks|
    requires OrderAfter(config, ticks, m, id).Some?
    ensures Play(config, ticks[..m]).Some? && id in Play(config, ticks[..m]).value.state.payloads
    ensures id in Play(config, ticks).value.state.payloads
    ensures Play(config, ticks).value.state.payloads[id] == Play(config, ticks[..m]).value.state.payloads[id]
    decreases |ticks| - m
  {
    hide PlayTick, Stamped, WellFormed, Due, Executed, Declined, TradesFor, Made;
    PrefixPlays(config, ticks, m);
    PlayNames(config, ticks[..m]);
    if m == |ticks| {
      assert ticks[..m] == ticks;
    } else {
      var run := TurnOf(config, ticks, m);
      TickFate(config, run, ticks[m], id);
      RequestStays(config, ticks, m + 1, id);
    }
  }

  /** What the turn after the first `m` does to an order that waits. */
  lemma WaitingTurn(config: Config, ticks: seq<Tick>, k: nat, m: nat, id: Id, q: Request)
    requires config.Valid() && Paced(ticks) && Play(config, ticks).Some? && k < m < |ticks|
    requires id in Play(config, ticks).value.state.payloads && q == Play(config, ticks).value.state.payloads[id]
    requires q in ticks[k].requests && OrderAfter(config, ticks, m, id) == Some(NewOrder(q))
    ensures OrderAfter(config, ticks, m + 1, id).Some?
    ensures OrderAfter(config, ticks, m + 1, id) == Some(NewOrder(q)) <==> OutOfReach(q.side, q.limit, ticks[m].candle)
  {
    hide Play, PlayTick, WellFormed, Executed, Declined, TradesFor, Made;
    var run := TurnOf(config, ticks, m);
    RequestStays(config, ticks, m, id);
    CandlesFollow(config, ticks, k, m);
    RequestStamp(ticks[k], q);
    TickFate(config, run, ticks[m], id);
    RawFillIsTouched(q.side, q.limit, ticks[m].candle);
    DecidedIsDifferent(NewOrder(q), Play(config, ticks[..m + 1]).value.state.orders[id],
                       Made(config, run, ticks[m], id), ticks[m].candle);
    DueIsInReach(config, run.state, id, ticks[m].candle, q);
  }

  lemma DueIsInReach(config: Config, s: State, id: Id, candle: Candle, q: Request)
    requires config.Valid() && WellFormed(config, s) && id in s.orders && id in s.payloads && s.payloads[id] == q
    requires s.orders[id] == NewOrder(q) && q.clientId == id && q.cursor <= candle.start && candle.Valid()
    ensures Due(config, s, id, candle) <==> !OutOfReach(q.side, q.limit, candle)
  {
    hide Aligned, RawFill;
    RawFillIsTouched(q.side, q.limit, candle);
  }

  lemma DecidedIsDifferent(before: Order, after: Order, trades: seq<Trade>, candle: Candle)
    requires before.status == Accepted
    ensures Executed(before, after, trades, candle) || Declined(before, after, trades, candle) ==> after != before
  {
    hide RawFill;
  }

  /** The life of every order of every run, by its request alone. It is unknown until the turn
      whose requests name it, and then waits on exactly the requested terms while every candle
      is out of its limit's reach. The first candle within reach, which opens no earlier than the
      candle that caused the order ended, decides it: it is rejected without a trade, or
      filled by one trade that fits the request. After that it never changes. */
  lemma OrderFollowsRequest(config: Config, ticks: seq<Tick>, id: Id) returns (k: nat, j: nat, q: Request)
    requires config.Valid() && Paced(ticks) && Play(config, ticks).Some?
    requires id in Play(config, ticks).value.state.orders
    ensures k < j <= |ticks| && q in ticks[k].requests && q.orderId == q.clientId == id
    ensures Unseen(config, ticks, k, id)
    ensures forall m :: k < m <= j ==> WaitsAfter(config, ticks, m, id, q)
    ensures forall m :: k < m < j ==> OutOfReach(q.side, q.limit, ticks[m].candle)
    ensures j < |ticks| ==> ticks[k].candle.end <= ticks[j].candle.start
    ensures forall m :: j < m <= |ticks| ==> OrderAfter(config, ticks, m, id) == OrderAfter(config, ticks, |ticks|, id)
    ensures var run := Play(config, ticks).value;
            var order, mine := run.state.orders[id], TradesFor(run.trades, id);
            if j == |ticks| then Waits(order, q) && mine == []
            else Decided(config, order, mine, q, ticks[j].candle)
  {
    k, j, q := OrderHistory(config, ticks, id);
    hide Play, PlayTick, TradesFor, Waits, OutOfReach, RawFill;
    NewOrderWaits(q);
    forall m | k < m <= j ensures WaitsAfter(config, ticks, m, id, q) {
      assert OrderAfter(config, ticks, m, id) == Some(NewOrder(q));
    }
    forall m | k < m < j ensures OutOfReach(q.side, q.limit, ticks[m].candle) {
      assert OrderAfter(config, ticks, m + 1, id) == Some(NewOrder(q));
      assert OrderAfter(config, ticks, m, id) == Some(NewOrder(q));
      WaitingTurn(config, ticks, k, m, id, q);
    }
    RequestIsStamped(ticks, k, q);
    if j < |ticks| {
      OutcomeFits(config, ticks, id, k, j, q);
    }
  }

  lemma RequestIsStamped(ticks: seq<Tick>, k: nat, q: Request)
    requires Paced(ticks) && k < |ticks| && q in ticks[k].requests
    ensures q.orderId == q.clientId && q.cursor == ticks[k].candle.end
  {
    hide Stamped;
    assert Stamped(ticks[k]);
    RequestStamp(ticks[k], q);
  }

  lemma OutcomeFits(config: Config, ticks: seq<Tick>, id: Id, k: nat, j: nat, q: Request)
    requires config.Valid() && Paced(ticks) && Play(config, ticks).Some? && j < |ticks|
    requires id in Play(config, ticks).value.state.orders && id in Play(config, ticks).value.state.payloads
    requires History(config, ticks, id, k, j, q) && q == Play(config, ticks).value.state.payloads[id]
    requires TradedOnce(Play(config, ticks).value, ticks, id, j, q)
    ensures var run := Play(config, ticks).value;
            Decided(config, run.state.orders[id], TradesFor(run.trades, id), q, ticks[j].candle)
  {
    hide Play, PlayTick, TradesFor, OutOfReach, RawFill, Priced;
    var run, candle := Play(config, ticks).value, ticks[j].candle;
    var order, mine := run.state.orders[id], TradesFor(run.trades, id);
    assert OrderAfter(config, ticks, j, id) == Some(NewOrder(q));
    WaitingTurn(config, ticks, k, j, id, q);
    FinalOrder(config, ticks, id);
    DecidedIsDifferent(NewOrder(q), order, mine, candle);
    assert OrderAfter(config, ticks, j + 1, id) == OrderAfter(config, ticks, |ticks|, id);
    var turn := TurnOf(config, ticks, j);
    RawFillIsTouched(q.side, q.limit, candle);
    AllTradesPriced(config, ticks, id);
  }

  lemma AllTradesPriced(config: Config, ticks: seq<Tick>, id: Id)
    requires config.Valid() && Play(config, ticks).Some?
    ensures AllPriced(config, TradesFor(Play(config, ticks).value.trades, id))
  {
    hide Play, CashFlow, NetQuantity, Charged, Slippage, FillsOf, Priced, TradesFor;
    RunConserves(config, ticks);
    PricedOnes(config, Play(config, ticks).value.trades, id);
  }

  lemma {:induction false} PricedOnes(config: Config, trades: seq<Trade>, id: Id)
    requires config.Valid() && AllPriced(config, trades)
    ensures AllPriced(config, TradesFor(trades, id))
  {
    hide Priced;
    if trades != [] {
      PricedOnes(config, trades[..|trades| - 1], id);
    }
  }
}
