/** Runs of a new broker that buys and then sells what it bought: when a backtest can end
    with negative cash, and how a filled order can come back. */
module BrokerExamples {
  import opened Decimals
  import opened Accounting
  import opened Pricing
  import opened Broker
  import opened BrokerLemmas
  import opened OrderLife
  import opened Runs

  /** A candle during which nothing but one price is seen. */
  function FlatCandle(n: nat, price: real): Candle {
    Candle(n, n + 1, price, price, price, price, 0.0)
  }

  /** A market order caused by the candle that ends at `at`. */
  function MarketOrder(id: Id, side: Side, quantity: real, at: int): Request {
    Request(id, id, "s", "X", side, Market, quantity, None, "", at, at)
  }

  /** Commission of a hundred percent, no slippage, and just enough cash for one purchase. */
  function OneTrip(tick: real, lot: real, price: real, quantity: real): Config {
    var notional := Product(price, quantity);
    Config(notional + Commission(notional, 100.0), "RUB", "X", tick, lot, 100.0, 0.0)
  }

  function BuyThenSell(price: real, quantity: real): seq<Tick> {
    [Tick(FlatCandle(0, price), [MarketOrder(1, Buy, quantity, 1)]),
     Tick(FlatCandle(1, price), [MarketOrder(2, Sell, quantity, 2)]),
     Tick(FlatCandle(2, price), [])]
  }

  // ---------------------------------------------------------------------------
  // Candles that find at most one order waiting
  // ---------------------------------------------------------------------------

  lemma IdleCandle(config: Config, s: State, candle: Candle)
    requires config.Valid() && WellFormed(config, s) && OpenIds(s) == {}
    ensures OnCandle(config, s, candle) == Settlement(s.(lastPrice := Some(candle.close)), [], false)
  {
    SortedListIsUnique(SortedIds(OpenIds(s)), []);
  }

  lemma SoleOrder(config: Config, s: State, candle: Candle, id: Id)
    requires config.Valid() && WellFormed(config, s) && id in s.orders && OpenIds(s) == {id}
    ensures var marked := s.(lastPrice := Some(candle.close));
            WellFormed(config, marked) &&
            OnCandle(config, s, candle) == Settle(config, Settlement(marked, [], false), id, candle)
  {
    hide Settle, Aligned;
    SortedListIsUnique(SortedIds(OpenIds(s)), [id]);
    var marked := s.(lastPrice := Some(candle.close));
    assert [id][..0] == [];
    assert SettleAll(config, marked, [], candle) == Settlement(marked, [], false);
  }

  /** A market order that is due on a flat candle is offered the candle's one price. */
  lemma SoleMarketOrder(config: Config, s: State, n: nat, price: real, id: Id)
    requires config.Valid() && WellFormed(config, s) && id in s.orders && OpenIds(s) == {id}
    requires s.orders[id].limit.None? && s.payloads[s.orders[id].clientId].cursor <= n
    requires TryFill(config, s.(lastPrice := Some(price)), s.orders[id], price, n).Done?
    ensures var done := TryFill(config, s.(lastPrice := Some(price)), s.orders[id], price, n);
            var filled := s.orders[id].(status := Filled, filled := s.orders[id].quantity, updatedAt := n);
            OnCandle(config, s, FlatCandle(n, price)) ==
            Settlement(done.state.(orders := done.state.orders[id := filled]), [done.trade], false)
  {
    hide TryFill, Aligned;
    SoleOrder(config, s, FlatCandle(n, price), id);
  }

  lemma FlatCandleIsTaken(config: Config, n: nat, price: real)
    requires config.Valid() && OnGrid(config, price)
    ensures ValidateEvent(config, config.instrument, config.asset, FlatCandle(n, price)).None?
  {
    assert 0.0 / config.lot == 0.0;
  }

  lemma OneSubmission(config: Config, s: State, r: Request)
    requires config.Valid() && ValidateRequest(r, config).None? && r.clientId !in s.payloads
    ensures SubmitAll(config, s, [r]) ==
            Ok(s.(orders := s.orders[r.orderId := NewOrder(r)], payloads := s.payloads[r.clientId := r]))
    ensures SubmitAll(config, s, []) == Ok(s)
  {
    hide ValidateRequest, NewOrder;
    assert [r][..0] == [];
  }

  // ---------------------------------------------------------------------------
  // The purchase, the sale, and what is left
  // ---------------------------------------------------------------------------

  /** A price and a quantity the broker trades. */
  predicate Tradable(tick: real, lot: real, price: real, quantity: real) {
    tick > 0.0 && lot > 0.0 && price > 0.0 && quantity > 0.0 && Aligned(price, tick) && Aligned(quantity, lot)
  }

  function FilledAt(r: Request, at: int): Order {
    NewOrder(r).(status := Filled, filled := r.quantity, updatedAt := at)
  }

  lemma OneTripIsValid(tick: real, lot: real, price: real, quantity: real)
    requires Tradable(tick, lot, price, quantity)
    ensures OneTrip(tick, lot, price, quantity).Valid()
    ensures Product(price, quantity) > 0.0
  {
    hide Aligned;
    assert Product(price, quantity) > 0.0;
    CommissionCap(Product(price, quantity), 100.0);
  }

  /** Without slippage a fill moves exactly the notional and its commission. */
  lemma PlainFill(config: Config, s: State, order: Order, price: real, at: int)
    requires config.Valid() && config.slippageBps == 0.0 && OnGrid(config, price)
    ensures var notional := Product(price, order.quantity);
            var commission := Commission(notional, config.commissionPercent);
            var done := TryFill(config, s, order, price, at);
            && (order.side == Buy && s.cash == notional + commission ==>
                  done.Done? && done.state.cash == 0.0 && done.state.position == s.position + order.quantity)
            && (order.side == Sell && s.position == order.quantity ==>
                  done.Done? && done.state.cash == s.cash + notional - commission && done.state.position == 0.0)
  {
    AlignedIsFixed(price, config.tick, order.side);
    hide FillPrice, Commission, Product, Aligned;
  }

  /** A flat candle settles the one order waiting, from just enough cash or stock. */
  lemma PlainCandle(config: Config, s: State, n: nat, price: real, id: Id)
    requires config.Valid() && WellFormed(config, s) && config.slippageBps == 0.0 && OnGrid(config, price)
    requires id in s.orders && OpenIds(s) == {id}
    requires s.orders[id].limit.None? && s.payloads[s.orders[id].clientId].cursor <= n
    requires var notional := Product(price, s.orders[id].quantity);
             if s.orders[id].side == Buy then s.cash == notional + Commission(notional, config.commissionPercent)
             else s.position == s.orders[id].quantity
    ensures var settled := OnCandle(config, s, FlatCandle(n, price));
            var order, notional := s.orders[id], Product(price, s.orders[id].quantity);
            var filled := order.(status := Filled, filled := order.quantity, updatedAt := n);
            && !settled.failed && settled.state.payloads == s.payloads
            && settled.state.orders == s.orders[id := filled]
            && (order.side == Buy ==>
                  settled.state.cash == 0.0 && settled.state.position == s.position + order.quantity)
            && (order.side == Sell ==>
                  && settled.state.cash == s.cash + notional - Commission(notional, config.commissionPercent)
                  && settled.state.position == 0.0)
  {
    hide Aligned, Commission, Product, TryFill, OnCandle, WellFormed, OpenIds;
    var marked := s.(lastPrice := Some(price));
    PlainFill(config, marked, s.orders[id], price, n);
    SoleMarketOrder(config, s, n, price, id);
  }

  lemma FirstTurn(tick: real, lot: real, price: real, quantity: real) returns (run: Run)
    requires Tradable(tick, lot, price, quantity) && OneTrip(tick, lot, price, quantity).Valid()
    ensures var r := MarketOrder(1, Buy, quantity, 1);
            && Play(OneTrip(tick, lot, price, quantity), BuyThenSell(price, quantity)[..1]) == Some(run)
            && run.state == Initial(OneTrip(tick, lot, price, quantity))
                            .(orders := map[1 := NewOrder(r)], payloads := map[1 := r], lastPrice := Some(price))
  {
    hide Aligned, Commission, Product, SortedIds;
    var config, ticks := OneTrip(tick, lot, price, quantity), BuyThenSell(price, quantity);
    var r := MarketOrder(1, Buy, quantity, 1);
    FlatCandleIsTaken(config, 0, price);
    IdleCandle(config, Initial(config), FlatCandle(0, price));
    OneSubmission(config, OnCandle(config, Initial(config), FlatCandle(0, price)).state, r);
    assert ticks[..1][..0] == [] && ticks[..1][0] == ticks[0];
    assert Play(config, []) == Some(Run(Initial(config), []));
    run := PlayTick(config, Run(Initial(config), []), ticks[0]).value;
  }

  lemma MarketOrderIsValid(config: Config, r: Request)
    requires config.Valid() && r.instrument == config.instrument && r.orderType == Market && r.limit.None?
    requires r.quantity > 0.0 && Aligned(r.quantity, config.lot) && r.cursor == r.submittedAt
    ensures ValidateRequest(r, config).None?
  {
    hide Aligned;
  }

  /** What a last turn comes to when its candle is taken and its requests are. */
  lemma AcceptedTurn(config: Config, before: Run, ticks: seq<Tick>) returns (run: Run)
    requires config.Valid() && ticks != [] && Play(config, ticks[..|ticks| - 1]) == Some(before)
    requires var last := ticks[|ticks| - 1];
             && ValidateEvent(config, config.instrument, config.asset, last.candle).None?
             && WellFormed(config, before.state) && !OnCandle(config, before.state, last.candle).failed
             && SubmitAll(config, OnCandle(config, before.state, last.candle).state, last.requests).Ok?
    ensures Play(config, ticks) == Some(run)
    ensures var last := ticks[|ticks| - 1];
            Ok(run.state) == SubmitAll(config, OnCandle(config, before.state, last.candle).state, last.requests)
  {
    hide ValidateEvent, WellFormed, OnCandle, SubmitAll;
    run := PlayTick(config, before, ticks[|ticks| - 1]).value;
  }

  lemma Bought(tick: real, lot: real, price: real, quantity: real) returns (before: Run, settled: Settlement)
    requires Tradable(tick, lot, price, quantity) && OneTrip(tick, lot, price, quantity).Valid()
    ensures var config, first := OneTrip(tick, lot, price, quantity), MarketOrder(1, Buy, quantity, 1);
            && Play(config, BuyThenSell(price, quantity)[..1]) == Some(before) && WellFormed(config, before.state)
            && settled == OnCandle(config, before.state, FlatCandle(1, price)) && !settled.failed
            && settled.state.cash == 0.0 && settled.state.position == quantity
            && settled.state.orders == map[1 := FilledAt(first, 1)] && settled.state.payloads == map[1 := first]
  {
    var config := OneTrip(tick, lot, price, quantity);
    before := FirstTurn(tick, lot, price, quantity);
    hide Aligned, Commission, Product, TryFill, OnCandle, WellFormed, Play;
    assert OpenIds(before.state) == {1};
    PlainCandle(config, before.state, 1, price, 1);
    settled := OnCandle(config, before.state, FlatCandle(1, price));
  }

  lemma SecondTurn(tick: real, lot: real, price: real, quantity: real) returns (run: Run)
    requires Tradable(tick, lot, price, quantity) && OneTrip(tick, lot, price, quantity).Valid()
    ensures var first, second := MarketOrder(1, Buy, quantity, 1), MarketOrder(2, Sell, quantity, 2);
            && Play(OneTrip(tick, lot, price, quantity), BuyThenSell(price, quantity)[..2]) == Some(run)
            && run.state.cash == 0.0 && run.state.position == quantity
            && run.state.orders == map[1 := FilledAt(first, 1), 2 := NewOrder(second)]
            && run.state.payloads == map[1 := first, 2 := second]
  {
    hide Aligned, Commission, Product, OnCandle, ValidateEvent, ValidateRequest, WellFormed, Play, SubmitAll;
    var config, ticks := OneTrip(tick, lot, price, quantity), BuyThenSell(price, quantity);
    var second := MarketOrder(2, Sell, quantity, 2);
    var before, settled := Bought(tick, lot, price, quantity);
    FlatCandleIsTaken(config, 1, price);
    MarketOrderIsValid(config, second);
    OneSubmission(config, settled.state, second);
    assert ticks[..2][..1] == ticks[..1] && ticks[..2][1] == ticks[1];
    run := AcceptedTurn(config, before, ticks[..2]);
  }

  /** A filled order waits again when its order identifier is submitted under another client
      identifier, although the broker still holds what the order bought. */
  lemma FilledOrderCanReturn(tick: real, lot: real, price: real, quantity: real) returns (run: Run)
    requires Tradable(tick, lot, price, quantity)
    ensures var config, first := OneTrip(tick, lot, price, quantity), MarketOrder(1, Buy, quantity, 1);
            && config.Valid() && Paced(BuyThenSell(price, quantity)[..2])
            && Play(config, BuyThenSell(price, quantity)[..2]) == Some(run)
            && 1 in run.state.orders && run.state.orders[1] == FilledAt(first, 1) && run.state.position == quantity
            && var again := Submit(config, run.state, first.(clientId := 3));
               again.Ok? && again.value.position == quantity &&
               again.value.orders[1] == NewOrder(first.(clientId := 3))
  {
    hide Play, Commission, Product, Aligned;
    OneTripIsValid(tick, lot, price, quantity);
    run := SecondTurn(tick, lot, price, quantity);
  }

  /** The sale brings in its notional and pays its commission from an empty account. */
  lemma ThirdTurn(tick: real, lot: real, price: real, quantity: real) returns (run: Run)
    requires Tradable(tick, lot, price, quantity) && OneTrip(tick, lot, price, quantity).Valid()
    ensures var notional := Product(price, quantity);
            && Play(OneTrip(tick, lot, price, quantity), BuyThenSell(price, quantity)) == Some(run)
            && run.state.cash == notional - Commission(notional, 100.0) && run.state.position == 0.0
  {
    var config, ticks := OneTrip(tick, lot, price, quantity), BuyThenSell(price, quantity);
    var second := MarketOrder(2, Sell, quantity, 2);
    var before := SecondTurn(tick, lot, price, quantity);
    hide Aligned, Commission, Product, SortedIds, TryFill, OnCandle, ValidateEvent, WellFormed, Play;
    FlatCandleIsTaken(config, 2, price);
    assert OpenIds(before.state) == {2};
    PlainCandle(config, before.state, 2, price, 2);
    assert SubmitAll(config, OnCandle(config, before.state, FlatCandle(2, price)).state, []).Ok?;
    run := AcceptedTurn(config, before, ticks);
  }

  /** A run of a new broker can end overdrawn: with a hundred percent commission, a notional
      of half a last-place unit is charged a whole one. */
  lemma RunCanOverdraw()
    ensures var config := Config(3.0 * EPS, "RUB", "X", 0.00000001, 0.000000005, 100.0, 0.0);
            var run := Play(config, BuyThenSell(0.00000001, 0.000000005));
            && config.Valid() && !CoarseGrid(config) && Paced(BuyThenSell(0.00000001, 0.000000005))
            && run.Some? && run.value.state.cash == -EPS
  {
    hide Play, Product, Commission, Representable, Aligned;
    var tick, lot := 0.00000001, 0.000000005;
    HalfUnit();
    SelfAligned(tick);
    SelfAligned(lot);
    OneTripIsValid(tick, lot, tick, lot);
    var run := ThirdTurn(tick, lot, tick, lot);
  }

  lemma SelfAligned(step: real)
    requires step > 0.0
    ensures Aligned(step, step)
  {
    SelfQuotient(step);
  }

  lemma HalfUnit()
    ensures Product(0.00000001, 0.000000005) == EPS && !Representable(EPS)
    ensures Commission(EPS, 100.0) == 2.0 * EPS
  {
    assert EPS * SCALE == 0.5;
    assert EPS * 100.0 / 100.0 == EPS;
    assert Round(EPS) == 1.0 / SCALE;
  }

  /** Every run of every valid configuration on this grid keeps cash from going negative. */
  ghost predicate AlwaysSolvent(tick: real, lot: real) {
    forall config: Config, ticks: seq<Tick> ::
      config.Valid() && config.tick == tick && config.lot == lot && Paced(ticks) && Play(config, ticks).Some? ==>
        Play(config, ticks).value.state.cash >= 0.0
  }

  /** Runs stay solvent exactly on coarse grids. */
  lemma RunsStaySolvent(tick: real, lot: real)
    requires tick > 0.0 && lot > 0.0
    ensures AlwaysSolvent(tick, lot) <==> Representable(Product(tick, lot))
  {
    hide Play, Paced, Representable, Product;
    if Representable(Product(tick, lot)) {
      forall config: Config, ticks: seq<Tick> |
          config.Valid() && config.tick == tick && config.lot == lot && Paced(ticks) && Play(config, ticks).Some?
        ensures Play(config, ticks).value.state.cash >= 0.0
      {
        RunConserves(config, ticks);
      }
    } else {
      var config, ticks := OverdrawnRun(tick, lot);
      assert !AlwaysSolvent(tick, lot);
    }
  }

  /** On any other grid some run ends overdrawn. */
  lemma OverdrawnRun(tick: real, lot: real) returns (config: Config, ticks: seq<Tick>)
    requires tick > 0.0 && lot > 0.0 && !Representable(Product(tick, lot))
    ensures config.Valid() && config.tick == tick && config.lot == lot && Paced(ticks)
    ensures Play(config, ticks).Some? && Play(config, ticks).value.state.cash < 0.0
  {
    hide Play, Representable, Commission, Aligned;
    var price, quantity := GridOverdraw(tick, lot);
    config, ticks := OneTrip(tick, lot, price, quantity), BuyThenSell(price, quantity);
    OneTripIsValid(tick, lot, price, quantity);
    var run := ThirdTurn(tick, lot, price, quantity);
  }
}
