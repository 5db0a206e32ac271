/** What one market event can do to the broker: conservation of cash and stock, solvency,
    and the life of an order. */
module BrokerLemmas {
  import opened Decimals
  import opened Accounting
  import opened Pricing
  import opened Broker

  function FillsOf(trades: seq<Trade>): (fs: seq<Fill>)
    ensures |fs| == |trades| && forall i :: 0 <= i < |trades| ==> fs[i] == trades[i].fill
  {
    seq(|trades|, i requires 0 <= i < |trades| => trades[i].fill)
  }

  function Charged(trades: seq<Trade>): real {
    if trades == [] then 0.0 else Charged(trades[..|trades| - 1]) + trades[|trades| - 1].commission
  }

  /** What slippage cost the trader: buying above, or selling below, the raw price. */
  function AdverseCost(trade: Trade): real {
    Product(if trade.fill.side == Buy then trade.fill.price - trade.raw else trade.raw - trade.fill.price,
            trade.fill.quantity)
  }

  function Slippage(trades: seq<Trade>): real {
    if trades == [] then 0.0 else Slippage(trades[..|trades| - 1]) + AdverseCost(trades[|trades| - 1])
  }

  /** Prices the broker starts from are positive and whole ticks. */
  predicate OnGrid(config: Config, price: real)
    requires config.Valid()
  {
    price > 0.0 && Aligned(price, config.tick)
  }

  predicate AllFillsValid(trades: seq<Trade>) {
    forall i :: 0 <= i < |trades| ==> trades[i].fill.Valid()
  }

  // ---------------------------------------------------------------------------
  // Prices and commissions
  // ---------------------------------------------------------------------------

  /** A commission is the percentage of the notional, rounded to the last place. */
  lemma CommissionFollowsRate(notional: real, percent: real)
    ensures Abs(Commission(notional, percent) - Abs(notional) * percent / 100.0) <= EPS
  {
    hide Round;
  }

  /** Filled at the raw price moved by the slippage, and charged the percentage of the notional. */
  predicate Priced(config: Config, trade: Trade)
    requires config.Valid()
  {
    && SlippedBy(trade.fill.price, trade.raw, config.slippageBps, config.tick, trade.fill.side)
    && Abs(trade.commission - Product(trade.fill.price, trade.fill.quantity) * config.commissionPercent / 100.0) <= EPS
  }

  predicate AllPriced(config: Config, trades: seq<Trade>)
    requires config.Valid()
  {
    forall i :: 0 <= i < |trades| ==> Priced(config, trades[i])
  }

  /** A fill fails exactly when its price is not positive, and is refused exactly when cash does
      not cover a purchase and its commission, or stock a sale. */
  lemma FillDecision(config: Config, s: State, order: Order, raw: real, at: int)
    requires config.Valid() && order.quantity > 0.0
    ensures var price := FillPrice(raw, config.slippageBps, config.tick, order.side);
            var notional := Product(price, order.quantity);
            var commission := Commission(notional, config.commissionPercent);
            var covered := if order.side == Buy then s.cash >= notional + commission else s.position >= order.quantity;
            var outcome := TryFill(config, s, order, raw, at);
            && (outcome.Failed? <==> price <= 0.0)
            && (outcome.Refused? <==> price > 0.0 && !covered)
            && (outcome.Done? ==>
                  && outcome.trade.order == order.id && outcome.trade.fill == Fill(order.side, order.quantity, price)
                  && outcome.trade.raw == raw && outcome.trade.commission == commission
                  && outcome.trade.executedAt == at && outcome.trade.number == s.fills + 1)
  {
    hide FillPrice, Commission, Product;
  }

  lemma FillIsPriced(config: Config, s: State, order: Order, raw: real, at: int)
    requires config.Valid() && order.quantity > 0.0 && OnGrid(config, raw)
    requires TryFill(config, s, order, raw, at).Done?
    ensures Priced(config, TryFill(config, s, order, raw, at).trade)
  {
    hide FillPrice, Commission, TryFill, SlippedBy, Product;
    var price := FillPrice(raw, config.slippageBps, config.tick, order.side);
    FillDecision(config, s, order, raw, at);
    FillPriceFollowsRate(raw, config.slippageBps, config.tick, order.side);
    ProductIsNonNegative(price, order.quantity);
    CommissionFollowsRate(Product(price, order.quantity), config.commissionPercent);
  }

  // ---------------------------------------------------------------------------
  // Conservation
  // ---------------------------------------------------------------------------

  /** Cash is the initial cash less what the trades cost and less every commission; the
      position is what was bought less what was sold, and never short; slippage is always a cost,
      and every trade is priced and charged by the configured rates. */
  predicate Conserved(config: Config, s: State, trades: seq<Trade>)
    requires config.Valid()
  {
    && AllFillsValid(trades) && AllPriced(config, trades)
    && s.cash == config.initialCash + CashFlow(FillsOf(trades)) - Charged(trades)
    && s.position == NetQuantity(FillsOf(trades)) >= 0.0
    && s.commissions == Charged(trades)
    && s.slippageCost == Slippage(trades) >= 0.0
    && s.fills == |trades|
  }

  lemma {:induction false} AppendTrade(trades: seq<Trade>, trade: Trade)
    ensures FillsOf(trades + [trade]) == FillsOf(trades) + [trade.fill]
    ensures CashFlow(FillsOf(trades + [trade])) == CashFlow(FillsOf(trades)) - trade.fill.Cost()
    ensures NetQuantity(FillsOf(trades + [trade])) == NetQuantity(FillsOf(trades)) + trade.fill.Signed()
    ensures Charged(trades + [trade]) == Charged(trades) + trade.commission
    ensures Slippage(trades + [trade]) == Slippage(trades) + AdverseCost(trade)
  {
    hide Fill.Cost, Fill.Signed, AdverseCost;
    var more := FillsOf(trades + [trade]);
    assert more == FillsOf(trades) + [trade.fill];
    assert more[..|trades|] == FillsOf(trades);
    assert (trades + [trade])[..|trades|] == trades;
  }

  lemma {:induction false} CostIsNotional(side: Side, quantity: real, price: real)
    ensures Fill(side, quantity, price).Cost() == if side == Buy then Product(price, quantity)
        else -Product(price, quantity)
  {
  }

  /** The slippage the broker adds up is the adverse difference, never a gain. */
  lemma SlippageIsCost(config: Config, raw: real, quantity: real, side: Side)
    requires config.Valid() && OnGrid(config, raw) && quantity > 0.0
    ensures var price := FillPrice(raw, config.slippageBps, config.tick, side);
            var cost := Product(if side == Buy then price - raw else raw - price, quantity);
            Abs(Product(price - raw, quantity)) == cost >= 0.0
  {
    hide FillPrice, Aligned, Fraction;
    var price := FillPrice(raw, config.slippageBps, config.tick, side);
    SlippageCostsAreBounded(raw, config.slippageBps, config.tick, side);
    NonNegativeProduct(if side == Buy then price - raw else raw - price, quantity);
    OppositeProducts(price - raw, quantity);
  }

  lemma OppositeProducts(x: real, y: real)
    ensures Product(-x, y) == -Product(x, y)
  {
  }

  lemma {:induction false} FillConserves(config: Config, s: State, trades: seq<Trade>, order: Order, raw: real, at: int)
    requires config.Valid() && Conserved(config, s, trades) && order.quantity > 0.0 && OnGrid(config, raw)
    requires TryFill(config, s, order, raw, at).Done?
    ensures var done := TryFill(config, s, order, raw, at);
            Conserved(config, done.state, trades + [done.trade])
  {
    hide FillPrice, Commission, Product, CashFlow, NetQuantity, Charged, Slippage, Fill.Cost, OnGrid, Priced;
    var trade := TryFill(config, s, order, raw, at).trade;
    AppendTrade(trades, trade);
    FillIsPriced(config, s, order, raw, at);
    CostIsNotional(order.side, order.quantity, trade.fill.price);
    SlippageIsCost(config, raw, order.quantity, order.side);
  }

  /** A raw price is an aligned open or an aligned limit. */
  lemma RawFillIsOnGrid(config: Config, s: State, id: Id, candle: Candle)
    requires config.Valid() && WellFormed(config, s) && id in s.orders && OnGrid(config, candle.open)
    ensures var raw := RawFill(s.orders[id].side, s.orders[id].limit, candle);
            raw.Some? ==> OnGrid(config, raw.value)
  {
    hide Aligned;
  }

  lemma {:induction false} SettleConserves(config: Config, before: Settlement, trades: seq<Trade>, id: Id,
      candle: Candle)
    requires config.Valid() && WellFormed(config, before.state) && id in before.state.orders
    requires Conserved(config, before.state, trades + before.trades) && OnGrid(config, candle.open)
    ensures var after := Settle(config, before, id, candle);
            Conserved(config, after.state, trades + after.trades)
  {
    hide RawFill, TryFill, FillsOf, CashFlow, NetQuantity, Charged, Slippage, OnGrid, Priced;
    var s, order := before.state, before.state.orders[id];
    var raw := RawFill(order.side, order.limit, candle);
    RawFillIsOnGrid(config, s, id, candle);
    if raw.Some? {
      var outcome := TryFill(config, s, order, raw.value, candle.start);
      if outcome.Done? {
        FillConserves(config, s, trades + before.trades, order, raw.value, candle.start);
        assert trades + (before.trades + [outcome.trade]) == trades + before.trades + [outcome.trade];
      }
    }
  }

  lemma {:induction false} SettlementConserves(config: Config, s: State, trades: seq<Trade>, ids: seq<Id>,
      candle: Candle)
    requires config.Valid() && WellFormed(config, s) && Conserved(config, s, trades) && OnGrid(config, candle.open)
    requires forall i :: 0 <= i < |ids| ==> ids[i] in s.orders
    ensures var r := SettleAll(config, s, ids, candle);
            Conserved(config, r.state, trades + r.trades)
  {
    hide Conserved, Settle, WellFormed;
    if ids == [] {
      assert trades + [] == trades;
    } else {
      var init := ids[..|ids| - 1];
      SettlementConserves(config, s, trades, init, candle);
      SettleConserves(config, SettleAll(config, s, init, candle), trades, ids[|ids| - 1], candle);
    }
  }

  // ---------------------------------------------------------------------------
  // Solvency
  // ---------------------------------------------------------------------------

  lemma CommissionShare(notional: real, percent: real) returns (share: real)
    requires notional >= 0.0 && 0.0 <= percent <= 100.0
    ensures 0.0 <= share <= notional && Commission(notional, percent) == Round(share)
  {
    hide Round;
    var part := Product(notional, percent);
    share := part / 100.0;
    assert Abs(notional) == notional;
    assert notional * (100.0 - percent) >= 0.0;
  }

  /** A capped commission never exceeds the notional rounded to sixteen places. */
  lemma CommissionCap(notional: real, percent: real)
    requires notional >= 0.0 && 0.0 <= percent <= 100.0
    ensures 0.0 <= Commission(notional, percent) <= Round(notional)
  {
    hide Commission, Round;
    var share := CommissionShare(notional, percent);
    RoundIsMonotone(share, notional);
    RoundIsExact(0);
    RoundIsMonotone(0.0, share);
    assert Round(0.0) == 0.0;
  }

  /** No permitted percentage takes more than a sale brings in, exactly when the notional
      does not round upwards. */
  lemma CapCoversSale(notional: real)
    requires notional >= 0.0
    ensures (forall percent :: 0.0 <= percent <= 100.0 ==> Commission(notional, percent) <= notional)
            <==> Round(notional) <= notional
  {
    hide Round;
    assert notional * 100.0 / 100.0 == notional;
    assert Commission(notional, 100.0) == Round(notional);
    forall percent | 0.0 <= percent <= 100.0 ensures Commission(notional, percent) <= Round(notional) {
      CommissionCap(notional, percent);
    }
  }

  /** Ticks and lots so coarse that every notional has at most sixteen decimal places. */
  predicate CoarseGrid(config: Config) {
    Representable(Product(config.tick, config.lot))
  }

  lemma GridProduct(n: int, m: int, tick: real, lot: real) returns (whole: int)
    requires Representable(Product(tick, lot))
    ensures Product(Steps(n, tick), Steps(m, lot)) == whole as real / SCALE
  {
    var cell := Product(tick, lot);
    var units := (cell * SCALE).Floor;
    whole := n * m * units;
    assert cell == units as real / SCALE;
    assert Product(Steps(n, tick), Steps(m, lot)) == (n * m) as real * cell by {
      assert (n * m) as real == n as real * m as real;
    }
    assert (n * m * units) as real == (n * m) as real * units as real;
  }

  /** On such a grid an aligned notional is representable, so the cap is exact. */
  lemma GridNotional(price: real, tick: real, quantity: real, lot: real)
    requires tick > 0.0 && lot > 0.0 && Representable(Product(tick, lot))
    requires Aligned(price, tick) && Aligned(quantity, lot)
    ensures Round(Product(price, quantity)) == Product(price, quantity)
  {
    var n := AlignedSteps(price, tick);
    var m := AlignedSteps(quantity, lot);
    hide Round, Aligned, Steps, Product;
    var whole := GridProduct(n, m, tick, lot);
    RoundIsExact(whole);
  }

  /** Half a unit or more above a whole number: rounding such a value goes up. */
  lemma RoundsUp(x: real, whole: int, rest: real)
    requires x >= 0.0 && x * SCALE == whole as real + rest && 0.5 <= rest < 1.0
    ensures Round(x) > x
  {
    assert (x * SCALE + 0.5).Floor == whole + 1;
  }

  /** The first multiple of a fraction to reach a half stays below one. */
  lemma FirstHalf(f: real) returns (k: int, multiple: real)
    requires 0.0 < f < 1.0
    ensures k >= 1 && multiple == k as real * f && 0.5 <= multiple < 1.0
  {
    hide Ceiling;
    if f >= 0.5 {
      k, multiple := 1, f;
    } else {
      var q := HalfQuotient(f);
      k := Ceiling(q);
      var steps := k as real;
      multiple := steps * f;
      HalfMultiple(f, q, steps);
      assert steps > 0.0;
    }
  }

  lemma HalfQuotient(f: real) returns (q: real)
    requires 0.0 < f < 0.5
    ensures f * q == 0.5 && q > 0.0
  {
    q := 0.5 / f;
    MulDiv(0.5, f);
  }

  lemma HalfMultiple(f: real, q: real, k: real)
    requires 0.0 < f < 0.5 && f * q == 0.5 && 0.0 <= k - q < 1.0
    ensures 0.5 <= k * f < 1.0
  {
    var over := k - q;
    var more := over * f;
    ScaledBelow(over, f);
    assert 0.0 <= more < f;
    var whole := k * f;
    assert whole == f * q + more;
    assert whole == 0.5 + more;
  }

  lemma ScaledBelow(x: real, f: real)
    requires 0.0 <= x < 1.0 && f > 0.0
    ensures 0.0 <= x * f < f
  {
    assert (1.0 - x) * f > 0.0;
  }

  /** A cell of the grid that is not representable has a multiple that rounds up. */
  lemma CellRoundsUp(cell: real) returns (k: int, n: real)
    requires cell > 0.0 && !Representable(cell)
    ensures k >= 1 && n == k as real * cell && Round(n) > n >= 0.0
  {
    hide Round;
    var x := cell * SCALE;
    var f := x - x.Floor as real;
    var rest;
    k, rest := FirstHalf(f);
    n := k as real * cell;
    var whole := k * x.Floor;
    assert whole as real == k as real * x.Floor as real;
    assert k as real * x == whole as real + rest;
    assert n * SCALE == k as real * x;
    NonNegativeProduct(k as real, cell);
    RoundsUp(n, whole, rest);
  }

  /** No aligned sale can cost more in commission than it brings in, at any permitted
      percentage. */
  ghost predicate CapProtects(tick: real, lot: real)
    requires tick > 0.0 && lot > 0.0
  {
    forall price, quantity, percent ::
      price >= 0.0 && quantity >= 0.0 && 0.0 <= percent <= 100.0 && Aligned(price, tick) && Aligned(quantity, lot) ==>
        Commission(Product(price, quantity), percent) <= Product(price, quantity)
  }

  /** The commission cap protects every sale exactly on coarse grids. */
  lemma CapProtectsCoarseGrids(tick: real, lot: real)
    requires tick > 0.0 && lot > 0.0
    ensures CapProtects(tick, lot) <==> Representable(Product(tick, lot))
  {
    hide Round, Commission, Representable, Aligned, Product;
    if Representable(Product(tick, lot)) {
      forall price, quantity, percent | price >= 0.0 && quantity >= 0.0 && 0.0 <= percent <= 100.0 &&
          Aligned(price, tick) && Aligned(quantity, lot)
        ensures Commission(Product(price, quantity), percent) <= Product(price, quantity)
      {
        ProductIsNonNegative(price, quantity);
        GridNotional(price, tick, quantity, lot);
        CommissionCap(Product(price, quantity), percent);
      }
    } else {
      var price, quantity := GridOverdraw(tick, lot);
      assert !(Commission(Product(price, quantity), 100.0) <= Product(price, quantity));
    }
  }

  lemma ProductIsNonNegative(x: real, y: real)
    requires x >= 0.0 && y >= 0.0
    ensures Product(x, y) >= 0.0
  {
  }

  lemma GridOverdraw(tick: real, lot: real) returns (price: real, quantity: real)
    requires tick > 0.0 && lot > 0.0 && !Representable(Product(tick, lot))
    ensures price > 0.0 && quantity > 0.0 && Aligned(price, tick) && Aligned(quantity, lot)
    ensures Commission(Product(price, quantity), 100.0) > Product(price, quantity)
  {
    hide Round, Commission, Representable, Aligned;
    assert tick * lot > 0.0;
    var k, n := CellRoundsUp(Product(tick, lot));
    price, quantity := Steps(k, tick), lot;
    assert Steps(1, lot) == lot;
    StepsAreAligned(k, tick);
    StepsAreAligned(1, lot);
    assert k as real * tick > 0.0;
    assert Product(price, quantity) == n;
    FullCommission(n);
  }

  /** A commission of a hundred percent is the notional rounded. */
  lemma FullCommission(notional: real)
    requires notional >= 0.0
    ensures Commission(notional, 100.0) == Round(notional)
  {
    hide Round;
    assert Abs(notional) == notional;
    assert Product(notional, 100.0) / 100.0 == notional;
  }

  lemma {:induction false} FillStaysSolvent(config: Config, s: State, order: Order, raw: real, at: int)
    requires config.Valid() && CoarseGrid(config) && s.cash >= 0.0
    requires order.quantity > 0.0 && Aligned(order.quantity, config.lot) && Aligned(raw, config.tick)
    requires TryFill(config, s, order, raw, at).Done?
    ensures TryFill(config, s, order, raw, at).state.cash >= 0.0
  {
    hide FillPrice, Commission, Aligned, Round;
    var price := FillPrice(raw, config.slippageBps, config.tick, order.side);
    var notional := Product(price, order.quantity);
    FillPriceIsAdverse(raw, config.slippageBps, config.tick, order.side);
    NonNegativeProduct(price, order.quantity);
    GridNotional(price, config.tick, order.quantity, config.lot);
    CommissionCap(notional, config.commissionPercent);
  }

  lemma {:induction false} SettleStaysSolvent(config: Config, before: Settlement, id: Id, candle: Candle)
    requires config.Valid() && WellFormed(config, before.state) && id in before.state.orders
    requires CoarseGrid(config) && before.state.cash >= 0.0 && OnGrid(config, candle.open)
    ensures Settle(config, before, id, candle).state.cash >= 0.0
  {
    hide TryFill, RawFill, CoarseGrid, Aligned;
    var order := before.state.orders[id];
    var raw := RawFill(order.side, order.limit, candle);
    RawFillIsOnGrid(config, before.state, id, candle);
    if raw.Some? && TryFill(config, before.state, order, raw.value, candle.start).Done? {
      FillStaysSolvent(config, before.state, order, raw.value, candle.start);
    }
  }

  lemma {:induction false} SettlementStaysSolvent(config: Config, s: State, ids: seq<Id>, candle: Candle)
    requires config.Valid() && WellFormed(config, s) && CoarseGrid(config) && s.cash >= 0.0
    requires OnGrid(config, candle.open)
    requires forall i :: 0 <= i < |ids| ==> ids[i] in s.orders
    ensures SettleAll(config, s, ids, candle).state.cash >= 0.0
  {
    hide Settle, WellFormed, CoarseGrid, Aligned;
    if ids != [] {
      var init := ids[..|ids| - 1];
      SettlementStaysSolvent(config, s, init, candle);
      SettleStaysSolvent(config, SettleAll(config, s, init, candle), ids[|ids| - 1], candle);
    }
  }
}
