/** Fill pricing of the simulated broker: which raw price a candle offers an order, how
    slippage moves it, and how the result is rounded to whole ticks against the trader. */
module Pricing {
  import opened Decimals
  import opened Accounting

  datatype Candle = Candle(start: int, end: int, open: real, high: real, low: real, close: real, volume: real) {
    predicate Valid() {
      && start < end
      && open > 0.0 && high > 0.0 && low > 0.0 && close > 0.0 && volume >= 0.0
      && low <= open <= high && low <= close <= high
    }
  }

  /** A market order has no limit, a limit order has one. */
  type Limit = Option<real>

  /** The remainder of decimal division is zero. */
  predicate Aligned(value: real, step: real)
    requires step > 0.0
  {
    value / step == (value / step).Floor as real
  }

  function RawFill(side: Side, limit: Limit, candle: Candle): Option<real> {
    match limit
    case None => Some(candle.open)
    case Some(bound) =>
      if side == Buy then
        if candle.low > bound then None
        else if candle.open < bound then Some(candle.open)
        else Some(bound)
      else
        if candle.high < bound then None
        else if candle.open > bound then Some(candle.open)
        else Some(bound)
  }

  /** A price that is at least as good for the trader as the limit. */
  predicate NoWorse(price: real, limit: real, side: Side) {
    if side == Buy then price <= limit else price >= limit
  }

  /** A limit order that no price of the candle satisfies. */
  predicate OutOfReach(side: Side, limit: Limit, candle: Candle) {
    limit.Some? && if side == Buy then candle.low > limit.value else candle.high < limit.value
  }

  /** The raw price was really traded in the candle and is never worse than the limit: it is
      the open wherever that is no worse, and the limit otherwise. An order is passed over
      exactly when its limit lies outside the candle's reach. */
  lemma RawFillIsTouched(side: Side, limit: Limit, candle: Candle)
    requires candle.Valid()
    ensures var raw := RawFill(side, limit, candle);
            && (raw.None? <==> OutOfReach(side, limit, candle))
            && (raw.Some? ==>
                  && candle.low <= raw.value <= candle.high
                  && (limit.Some? ==> NoWorse(raw.value, limit.value, side))
                  && (limit.None? || NoWorse(candle.open, limit.value, side) ==> raw.value == candle.open)
                  && (limit.Some? && !NoWorse(candle.open, limit.value, side) ==> raw == limit))
  {
  }

  function Ceiling(x: real): (n: int)
    ensures x <= n as real < x + 1.0
  {
    -((-x).Floor)
  }

  /** Rounds a price to whole steps, up for a purchase and down for a sale. */
  function AdverseRound(value: real, step: real, side: Side): real
    requires step > 0.0
  {
    Steps(AdverseUnits(Div(value, step), side), step)
  }

  function AdverseUnits(units: real, side: Side): int {
    if side == Buy then Ceiling(units) else units.Floor
  }

  function Steps(n: int, step: real): real {
    n as real * step
  }

  function Fraction(slippageBps: real): real {
    Div(slippageBps, 10000.0)
  }

  /** The fraction is the basis points over ten thousand, rounded. */
  lemma FractionIsRate(slippageBps: real)
    ensures Abs(Fraction(slippageBps) - slippageBps / 10000.0) <= EPS
  {
  }

  function Slipped(raw: real, slippageBps: real, side: Side): real {
    var delta := raw * Fraction(slippageBps);
    if side == Buy then raw + delta else raw - delta
  }

  function FillPrice(raw: real, slippageBps: real, tick: real, side: Side): real
    requires tick > 0.0
  {
    AdverseRound(Slipped(raw, slippageBps, side), tick, side)
  }

  /** The slippage fraction is a whole number of last-place units. */
  lemma FractionUnits(slippageBps: real) returns (n: int)
    ensures Fraction(slippageBps) == n as real / SCALE
  {
    var x := slippageBps / 10000.0;
    n := if x >= 0.0 then (x * SCALE + 0.5).Floor else -((0.5 - x * SCALE).Floor);
  }

  /** `k` whole steps moved by a fraction of `m` last-place units. */
  lemma MovedSteps(raw: real, k: int, f: real, m: int, step: real) returns (up: int, down: int)
    requires step > 0.0 && raw == Steps(k, step) && f == m as real / SCALE
    ensures (raw + raw * f) / step == up as real / SCALE
    ensures (raw - raw * f) / step == down as real / SCALE
  {
    up, down := k * 10000000000000000 + k * m, k * 10000000000000000 - k * m;
    var moved := k as real * f;
    assert (k * m) as real == k as real * m as real;
    assert moved * SCALE == (k * m) as real;
    assert up as real / SCALE == k as real + moved;
    assert down as real / SCALE == k as real - moved;
    assert raw * f == moved * step;
    assert raw + raw * f == (k as real + moved) * step;
    assert raw - raw * f == (k as real - moved) * step;
  }

  lemma AlignedSteps(value: real, step: real) returns (k: int)
    requires step > 0.0 && Aligned(value, step)
    ensures value == Steps(k, step)
  {
    k := (value / step).Floor;
    MulDiv(value, step);
  }

  lemma ExactQuotient(value: real, step: real, n: int)
    requires step != 0.0 && value / step == n as real / SCALE
    ensures Div(value, step) == value / step
  {
    RoundIsExact(n);
  }

  /** Slippage of a tick-aligned price divides by the tick without any rounding, because
      the slippage fraction itself keeps only sixteen places. */
  lemma TickDivisionIsExact(raw: real, slippageBps: real, tick: real, side: Side)
    requires tick > 0.0 && Aligned(raw, tick)
    ensures Div(Slipped(raw, slippageBps, side), tick) == Slipped(raw, slippageBps, side) / tick
  {
    hide Steps, Aligned, Fraction, Div;
    var k := AlignedSteps(raw, tick);
    var m := FractionUnits(slippageBps);
    var up, down := MovedSteps(raw, k, Fraction(slippageBps), m, tick);
    ExactQuotient(Slipped(raw, slippageBps, side), tick, if side == Buy then up else down);
  }

  lemma ScaledGap(gap: real, step: real) returns (product: real)
    requires step > 0.0 && 0.0 <= gap < 1.0
    ensures product == gap * step && 0.0 <= product < step
  {
    product := gap * step;
    var rest := 1.0 - gap;
    assert rest * step > 0.0;
    assert rest * step == step - product;
  }

  lemma AddSteps(lower: real, gap: real, step: real, product: real)
    requires product == gap * step
    ensures (lower + gap) * step == lower * step + product
  {
  }

  lemma WholeSteps(n: int, value: real, step: real)
    requires step > 0.0
    ensures value / step <= n as real < value / step + 1.0 ==> value <= Steps(n, step) < value + step
    ensures value / step - 1.0 < n as real <= value / step ==> value - step < Steps(n, step) <= value
    ensures Aligned(Steps(n, step), step)
  {
    hide Aligned;
    StepsAreAligned(n, step);
    MulDiv(value, step);
    var units, q := n as real, value / step;
    if q <= units < q + 1.0 {
      var product := ScaledGap(units - q, step);
      AddSteps(q, units - q, step, product);
    }
    if q - 1.0 < units <= q {
      var product := ScaledGap(q - units, step);
      AddSteps(units, q - units, step, product);
    }
  }

  lemma StepsAreAligned(n: int, step: real)
    requires step > 0.0
    ensures Aligned(Steps(n, step), step)
  {
    assert Steps(n, step) / step == n as real;
  }

  /** For every tick-aligned raw price the fill price is a whole number of ticks, on the
      costly side of the slipped price and less than one tick away from it. */
  lemma FillPriceIsAdverse(raw: real, slippageBps: real, tick: real, side: Side)
    requires tick > 0.0 && Aligned(raw, tick)
    ensures var slipped, price := Slipped(raw, slippageBps, side), FillPrice(raw, slippageBps, tick, side);
            && Aligned(price, tick)
            && (side == Buy ==> slipped <= price < slipped + tick)
            && (side == Sell ==> slipped - tick < price <= slipped)
  {
    TickDivisionIsExact(raw, slippageBps, tick, side);
    hide Slipped, Div, Steps, Aligned;
    var slipped := Slipped(raw, slippageBps, side);
    WholeSteps(AdverseUnits(Div(slipped, tick), side), slipped, tick);
  }

  function ShareOf(price: real, rate: real): real {
    price * rate
  }

  /** A price moved against the trader by so many basis points, up to the rounding of the
      fraction and to a whole tick on the costly side. */
  predicate SlippedBy(price: real, raw: real, slippageBps: real, tick: real, side: Side)
    requires tick > 0.0
  {
    var delta, noise := ShareOf(raw, slippageBps / 10000.0), raw * EPS;
    && Aligned(price, tick)
    && (side == Buy ==> raw + delta - noise <= price < raw + delta + noise + tick)
    && (side == Sell ==> raw - delta - noise - tick < price <= raw - delta + noise)
  }

  lemma FillPriceFollowsRate(raw: real, slippageBps: real, tick: real, side: Side)
    requires tick > 0.0 && Aligned(raw, tick) && raw > 0.0
    ensures SlippedBy(FillPrice(raw, slippageBps, tick, side), raw, slippageBps, tick, side)
  {
    hide FillPrice, Fraction, Aligned, Slipped;
    FillPriceIsAdverse(raw, slippageBps, tick, side);
    SlippedFollowsRate(raw, slippageBps, side);
  }

  lemma SlippedFollowsRate(raw: real, slippageBps: real, side: Side)
    requires raw > 0.0
    ensures var delta, noise := ShareOf(raw, slippageBps / 10000.0), raw * EPS;
            var exact := if side == Buy then raw + delta else raw - delta;
            exact - noise <= Slipped(raw, slippageBps, side) <= exact + noise
  {
    hide Fraction;
    FractionIsRate(slippageBps);
    ScaledError(raw, Fraction(slippageBps), slippageBps / 10000.0);
    assert ShareOf(raw, Fraction(slippageBps)) == raw * Fraction(slippageBps);
    hide ShareOf;
  }

  lemma ScaledError(raw: real, f: real, rate: real)
    requires raw > 0.0 && Abs(f - rate) <= EPS
    ensures ShareOf(raw, rate) - raw * EPS <= ShareOf(raw, f) <= ShareOf(raw, rate) + raw * EPS
  {
    NonNegativeProduct(raw, f - rate + EPS);
    NonNegativeProduct(raw, rate + EPS - f);
    assert raw * (f - rate + EPS) == raw * f - raw * rate + raw * EPS;
    assert raw * (rate + EPS - f) == raw * rate + raw * EPS - raw * f;
  }

  /** A buyer never pays less, a seller never receives more, than the raw price; what the
      trader loses per unit is less than the slippage fraction plus one tick. */
  lemma SlippageCostsAreBounded(raw: real, slippageBps: real, tick: real, side: Side)
    requires tick > 0.0 && Aligned(raw, tick) && raw > 0.0 && slippageBps >= 0.0
    ensures var loss := if side == Buy then FillPrice(raw, slippageBps, tick, side) - raw
                        else raw - FillPrice(raw, slippageBps, tick, side);
            0.0 <= loss < raw * Fraction(slippageBps) + tick
  {
    hide FillPrice, Fraction, Aligned;
    FillPriceIsAdverse(raw, slippageBps, tick, side);
    FractionIsNonNegative(slippageBps);
    NonNegativeProduct(raw, Fraction(slippageBps));
  }

  lemma NonNegativeProduct(x: real, y: real)
    requires x >= 0.0 && y >= 0.0
    ensures x * y >= 0.0
  {
  }

  lemma FractionIsNonNegative(slippageBps: real)
    requires slippageBps >= 0.0
    ensures Fraction(slippageBps) >= 0.0
  {
    RoundIsExact(0);
    RoundIsMonotone(0.0, slippageBps / 10000.0);
  }

  lemma UnitsWithin(units: real, k: int, side: Side)
    ensures NoWorse(AdverseUnits(units, side) as real, k as real, side) <==> NoWorse(units, k as real, side)
  {
    hide Ceiling;
    var n := AdverseUnits(units, side);
    if side == Buy {
      assert units <= k as real ==> n < k + 1;
    } else {
      assert units >= k as real ==> n > k - 1;
    }
  }

  lemma StepsCompare(x: real, k: int, step: real, value: real, limit: real, side: Side)
    requires step > 0.0 && value == x * step && limit == Steps(k, step)
    ensures NoWorse(value, limit, side) <==> NoWorse(x, k as real, side)
  {
    var gap := k as real - x;
    assert limit - value == gap * step;
    if gap > 0.0 {
      assert gap * step > 0.0;
    } else if gap < 0.0 {
      assert -gap * step > 0.0;
    }
  }

  /** The fill price in steps: the slipped price's, rounded against the trader. */
  lemma FillUnits(raw: real, slippageBps: real, tick: real, side: Side) returns (units: real, n: int)
    requires tick > 0.0 && Aligned(raw, tick)
    ensures n == AdverseUnits(units, side) && FillPrice(raw, slippageBps, tick, side) == Steps(n, tick)
    ensures Slipped(raw, slippageBps, side) == units * tick
  {
    TickDivisionIsExact(raw, slippageBps, tick, side);
    hide Slipped, Div, Steps, Aligned, AdverseUnits;
    units := Slipped(raw, slippageBps, side) / tick;
    n := AdverseUnits(units, side);
    MulDiv(Slipped(raw, slippageBps, side), tick);
  }

  lemma StepsProduct(n: int, step: real)
    ensures Steps(n, step) == n as real * step
  {
  }

  lemma RoundingKeepsSide(raw: real, limit: real, slippageBps: real, tick: real, side: Side)
    requires tick > 0.0 && Aligned(raw, tick) && Aligned(limit, tick)
    ensures NoWorse(FillPrice(raw, slippageBps, tick, side), limit, side) <==>
            NoWorse(Slipped(raw, slippageBps, side), limit, side)
  {
    hide FillPrice, Slipped, AdverseUnits, NoWorse, Aligned, Steps;
    var units, n := FillUnits(raw, slippageBps, tick, side);
    var k := AlignedSteps(limit, tick);
    UnitsWithin(units, k, side);
    StepsCompare(units, k, tick, Slipped(raw, slippageBps, side), limit, side);
    StepsProduct(n, tick);
    StepsCompare(n as real, k, tick, Steps(n, tick), limit, side);
  }

  /** Rounding to whole ticks never carries a price across a limit: whatever the side, the
      candle and the limit, the fill price keeps the limit exactly when the slipped price does. */
  lemma LimitFollowsSlippage(side: Side, limit: real, candle: Candle, slippageBps: real, tick: real)
    requires tick > 0.0 && Aligned(limit, tick) && Aligned(candle.open, tick)
    requires RawFill(side, Some(limit), candle).Some?
    ensures var raw := RawFill(side, Some(limit), candle).value;
            NoWorse(FillPrice(raw, slippageBps, tick, side), limit, side) <==>
            NoWorse(Slipped(raw, slippageBps, side), limit, side)
  {
    hide FillPrice, Slipped, NoWorse, Aligned;
    RoundingKeepsSide(RawFill(side, Some(limit), candle).value, limit, slippageBps, tick, side);
  }

  /** The limit protects only the raw price. On either side, the orders of one limit never
      fill beyond it, whatever the candle, exactly when no slippage survives rounding. */
  lemma LimitHoldsOnlyBeforeSlippage(side: Side, limit: real, slippageBps: real, tick: real)
    requires tick > 0.0 && Aligned(limit, tick) && limit > 0.0 && slippageBps >= 0.0
    ensures (forall candle: Candle ::
               candle.Valid() && Aligned(candle.open, tick) && RawFill(side, Some(limit), candle).Some? ==>
               NoWorse(FillPrice(RawFill(side, Some(limit), candle).value, slippageBps, tick, side), limit, side))
            <==> Fraction(slippageBps) == 0.0
  {
    hide FillPrice, Fraction, Aligned, RawFill, Slipped;
    FractionIsNonNegative(slippageBps);
    forall candle: Candle | candle.Valid() && Aligned(candle.open, tick) && RawFill(side, Some(limit), candle).Some?
      ensures Fraction(slippageBps) == 0.0 ==>
        NoWorse(FillPrice(RawFill(side, Some(limit), candle).value, slippageBps, tick, side), limit, side)
    {
      LimitFollowsSlippage(side, limit, candle, slippageBps, tick);
      RawFillIsTouched(side, Some(limit), candle);
      SlippedAway(RawFill(side, Some(limit), candle).value, slippageBps, side);
    }
    var flat := Candle(0, 1, limit, limit, limit, limit, 0.0);
    RawFillIsTouched(side, Some(limit), flat);
    LimitFollowsSlippage(side, limit, flat, slippageBps, tick);
    SlippedAway(limit, slippageBps, side);
  }

  /** Slippage moves a price against the trader, unless there is none. */
  lemma SlippedAway(raw: real, slippageBps: real, side: Side)
    requires raw > 0.0 && Fraction(slippageBps) >= 0.0
    ensures Slipped(raw, slippageBps, side) == raw <==> Fraction(slippageBps) == 0.0
    ensures NoWorse(raw, Slipped(raw, slippageBps, side), side)
  {
    hide Fraction;
    var delta := raw * Fraction(slippageBps);
    if Fraction(slippageBps) > 0.0 {
      assert delta > 0.0;
    } else {
      assert delta == 0.0;
    }
  }

  /** Without slippage every aligned price is filled as it stands. */
  lemma AlignedIsFixed(price: real, tick: real, side: Side)
    requires tick > 0.0 && Aligned(price, tick)
    ensures FillPrice(price, 0.0, tick, side) == price
  {
    RoundIsExact(0);
    assert Fraction(0.0) == 0.0;
    assert Slipped(price, 0.0, side) == price;
    FillPriceIsAdverse(price, 0.0, tick, side);
    hide Slipped, Fraction, FillPrice, Aligned;
    var k := AlignedSteps(price, tick);
    var n := AlignedSteps(FillPrice(price, 0.0, tick, side), tick);
    OneStepApart(k, n, tick);
    OneStepApart(n, k, tick);
  }

  lemma OneStepApart(k: int, n: int, step: real)
    requires step > 0.0
    ensures k > n ==> Steps(k, step) - Steps(n, step) >= step
  {
    var gap := (k - n) as real;
    assert gap * step == Steps(k, step) - Steps(n, step);
    if k > n {
      assert (gap - 1.0) * step >= 0.0;
    }
  }
}
