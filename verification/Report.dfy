/** The backtest report: a second average-cost ledger, trade statistics and the equity
    tracker, all updated in place while a run proceeds. */
module Reports {
  import opened Decimals
  import opened Accounting
  import opened Drawdowns

  datatype Tally = Tally(closed: nat, winning: nat, losing: nat, profit: real, loss: real)

  /** A fill closes (part of) a trade when it goes against a non-empty position. */
  predicate Closes(position: Position, signed: real) {
    position.quantity != 0.0 && Sign(position.quantity) != Sign(signed)
  }

  function Gain(books: Books, fill: Fill): real
    requires fill.Valid()
  {
    ApplyTo(books, fill).realized - books.realized
  }

  /** Trade statistics of a fill sequence, defined from the reducer's books alone. */
  function TallyOf(fills: seq<Fill>): Tally
    requires AllValid(fills)
  {
    if fills == [] then Tally(0, 0, 0, 0.0, 0.0)
    else
      var init, last := fills[..|fills| - 1], fills[|fills| - 1];
      AddTrade(TallyOf(init), FoldFills(FLAT, init), last)
  }

  function AddTrade(t: Tally, books: Books, fill: Fill): Tally
    requires fill.Valid()
  {
    if !Closes(books.position, fill.Signed()) then t
    else
      var gain := Gain(books, fill);
      Tally(t.closed + 1,
            if gain > 0.0 then t.winning + 1 else t.winning,
            if gain < 0.0 then t.losing + 1 else t.losing,
            if gain > 0.0 then t.profit + gain else t.profit,
            if gain < 0.0 then t.loss + -gain else t.loss)
  }

  /** Gross profit less gross loss is the realized total, and every closed trade is
      counted at most once as won or lost. */
  lemma {:induction false} TallyBalances(fills: seq<Fill>)
    requires AllValid(fills)
    ensures TallyOf(fills).profit - TallyOf(fills).loss == FoldFills(FLAT, fills).realized
    ensures TallyOf(fills).profit >= 0.0 && TallyOf(fills).loss >= 0.0
    ensures TallyOf(fills).winning + TallyOf(fills).losing <= TallyOf(fills).closed
  {
    if fills != [] {
      var init, last := fills[..|fills| - 1], fills[|fills| - 1];
      TallyBalances(init);
      OpeningRealizesNothing(FoldFills(FLAT, init), last);
      hide ApplyTo;
    }
  }

  /** What the `i`-th fill changed realized profit by. */
  function Change(fills: seq<Fill>, i: nat): real
    requires AllValid(fills) && i < |fills|
  {
    FoldFills(FLAT, fills[..i + 1]).realized - FoldFills(FLAT, fills[..i]).realized
  }

  /** The `i`-th fill went against what the fills before it had left open. */
  predicate Against(fills: seq<Fill>, i: nat)
    requires i < |fills|
  {
    NetQuantity(fills[..i]) * fills[i].Signed() < 0.0
  }

  function Wins(fills: seq<Fill>): set<nat>
    requires AllValid(fills)
  {
    set i: nat | i < |fills| && Change(fills, i) > 0.0
  }

  function Losses(fills: seq<Fill>): set<nat>
    requires AllValid(fills)
  {
    set i: nat | i < |fills| && Change(fills, i) < 0.0
  }

  function Closings(fills: seq<Fill>): set<nat> {
    set i: nat | i < |fills| && Against(fills, i)
  }

  /** What realized profit rose by, the falls left out. */
  function Rises(fills: seq<Fill>): real
    requires AllValid(fills)
  {
    if fills == [] then 0.0
    else Rises(fills[..|fills| - 1]) + Max(0.0, Change(fills, |fills| - 1))
  }

  lemma SameBefore(fills: seq<Fill>, fill: Fill, i: nat)
    requires AllValid(fills) && fill.Valid() && AllValid(fills + [fill]) && i < |fills|
    ensures Change(fills + [fill], i) == Change(fills, i)
    ensures Against(fills + [fill], i) == Against(fills, i)
  {
    hide FoldFills, NetQuantity;
    assert (fills + [fill])[..i] == fills[..i] && (fills + [fill])[..i + 1] == fills[..i + 1];
  }

  lemma LastChange(fills: seq<Fill>, fill: Fill)
    requires AllValid(fills) && fill.Valid()
    ensures AllValid(fills + [fill])
    ensures Change(fills + [fill], |fills|) == Gain(FoldFills(FLAT, fills), fill)
    ensures Against(fills + [fill], |fills|) <==> Closes(FoldFills(FLAT, fills).position, fill.Signed())
  {
    Appended(fills, fill);
    QuantityIsNet(FLAT, fills);
    ClosingSigns(FoldFills(FLAT, fills).position, fill.Signed());
    hide ApplyTo, FoldFills, Closes, NetQuantity;
    assert (fills + [fill])[..|fills|] == fills && (fills + [fill])[..|fills| + 1] == fills + [fill];
  }

  lemma ClosingSigns(position: Position, signed: real)
    requires signed != 0.0
    ensures Closes(position, signed) <==> position.quantity * signed < 0.0
  {
    var q := position.quantity;
    if q > 0.0 {
      assert signed > 0.0 ==> q * signed > 0.0;
      assert signed < 0.0 ==> q * -signed > 0.0;
    } else if q < 0.0 {
      assert signed > 0.0 ==> -q * signed > 0.0;
      assert signed < 0.0 ==> -q * -signed > 0.0;
    }
  }

  lemma SetsGrow(fills: seq<Fill>, fill: Fill)
    requires AllValid(fills) && fill.Valid() && AllValid(fills + [fill])
    ensures var n, more := |fills|, fills + [fill];
            && Wins(more) == Wins(fills) + (if Change(more, n) > 0.0 then {n} else {})
            && Losses(more) == Losses(fills) + (if Change(more, n) < 0.0 then {n} else {})
            && Closings(more) == Closings(fills) + (if Against(more, n) then {n} else {})
            && n !in Wins(fills) && n !in Losses(fills) && n !in Closings(fills)
  {
    hide Change, Against;
    forall i: nat | i < |fills|
      ensures Change(fills + [fill], i) == Change(fills, i)
    {
      SameBefore(fills, fill, i);
    }
    forall i: nat | i < |fills|
      ensures Against(fills + [fill], i) == Against(fills, i)
    {
      SameBefore(fills, fill, i);
    }
  }

  /** Closed trades are the fills against an open position, won ones those that raised realized
      profit and lost ones those that lowered it; gross profit is the sum of the rises. */
  lemma {:induction false} TallyCounts(fills: seq<Fill>)
    requires AllValid(fills)
    ensures TallyOf(fills).closed == |Closings(fills)|
    ensures TallyOf(fills).winning == |Wins(fills)| && TallyOf(fills).losing == |Losses(fills)|
    ensures TallyOf(fills).profit == Rises(fills)
  {
    hide ApplyTo, Closes, Wins, Losses, Closings, Change, Against, FoldFills, Gain;
    if fills == [] {
      NothingCounted();
    } else {
      var init, last := fills[..|fills| - 1], fills[|fills| - 1];
      assert fills == init + [last];
      TallyCounts(init);
      LastChange(init, last);
      SetsGrow(init, last);
      OpeningRealizesNothing(FoldFills(FLAT, init), last);
    }
  }

  lemma NothingCounted()
    ensures Wins([]) == {} && Losses([]) == {} && Closings([]) == {}
  {
  }

  lemma {:induction false} OpeningRealizesNothing(books: Books, fill: Fill)
    requires fill.Valid()
    ensures !Closes(books.position, fill.Signed()) ==> Gain(books, fill) == 0.0
  {
    hide WeightedAverage, ClosingGain;
  }

  /** What the reducer does with one fill, in the report's terms. */
  lemma {:induction false} StepShape(books: Books, fill: Fill)
    requires fill.Valid()
    ensures var q, avg, signed := books.position.quantity, books.position.average, fill.Signed();
            var gain := if !Closes(books.position, signed) then 0.0
                        else ClosingGain(books.position, fill.price, Min(Abs(q), Abs(signed)));
            var average := if q == 0.0 then fill.price
                           else if Sign(q) == Sign(signed) then WeightedAverage(avg, Abs(q), fill.price, Abs(signed))
                           else if q + signed == 0.0 then 0.0
                           else if Sign(q + signed) != Sign(q) then fill.price
                           else avg;
            && Gain(books, fill) == gain
            && ApplyTo(books, fill) == Books(Position(q + signed, average), books.realized + gain)
  {
    hide WeightedAverage, ClosingGain;
  }

  datatype Metrics = Metrics(finalEquity: real, totalPnL: real, realized: real, unrealized: real,
                             returnPercent: real, maxDrawdown: real, maxDrawdownPercent: real,
                             closedTrades: nat, winRate: real, profitFactor: Option<real>)

  class Report {
    var peak: real
    var maxDrawdown: real
    var maxDrawdownPct: real
    const initial: real
    const asset: string
    var position: real
    var averagePrice: real
    var realized: real
    var grossProfit: real
    var grossLoss: real
    var closedTrades: nat
    var winningTrades: nat
    var losingTrades: nat

    /** Everything observed so far. */
    ghost var fills: seq<Fill>
    ghost var equities: seq<real>

    ghost function Ledger(): Books
      reads this
    {
      Books(Position(position, averagePrice), realized)
    }

    ghost function Trades(): Tally
      reads this
    {
      Tally(closedTrades, winningTrades, losingTrades, grossProfit, grossLoss)
    }

    /** The report's own ledger is the reducer's, and its tracker follows the whole curve. */
    ghost predicate Valid()
      reads this
    {
      && AllValid(fills)
      && Ledger() == FoldFills(FLAT, fills)
      && Trades() == TallyOf(fills)
      && Tracker(peak, maxDrawdown, maxDrawdownPct) == Track(initial, equities)
    }

    constructor (initial: real, asset: string)
      ensures Valid() && fills == [] && equities == []
      ensures this.initial == initial && this.asset == asset
    {
      this.initial, this.asset := initial, asset;
      peak, maxDrawdown, maxDrawdownPct := initial, 0.0, 0.0;
      position, averagePrice, realized := 0.0, 0.0, 0.0;
      grossProfit, grossLoss := 0.0, 0.0;
      closedTrades, winningTrades, losingTrades := 0, 0, 0;
      fills, equities := [], [];
    }

    /** One execution of the loop in `Observe`. */
    method ObserveFill(fill: Fill)
      requires Valid() && fill.Valid()
      modifies `position, `averagePrice, `realized, `grossProfit, `grossLoss,
               `closedTrades, `winningTrades, `losingTrades, `fills
      ensures Valid() && fills == old(fills) + [fill]
    {
      hide WeightedAverage, Spread, FoldFills, TallyOf, AllValid, ApplyTo, Gain;
      var signed := fill.Signed();
      var before := position;
      ghost var books, tally := Ledger(), Trades();
      StepShape(books, fill);
      if before != 0.0 && Sign(before) != Sign(signed) {
        var closing := Min(Abs(before), Abs(signed));
        var tradePnL;
        if before > 0.0 {
          tradePnL := Spread(averagePrice, fill.price, closing);
        } else {
          tradePnL := Spread(fill.price, averagePrice, closing);
        }
        realized := realized + tradePnL;
        closedTrades := closedTrades + 1;
        if tradePnL > 0.0 {
          winningTrades := winningTrades + 1;
          grossProfit := grossProfit + tradePnL;
        } else if tradePnL < 0.0 {
          losingTrades := losingTrades + 1;
          grossLoss := grossLoss + Abs(tradePnL);
        }
      }
      var remaining := before + signed;
      if before == 0.0 || Sign(before) == Sign(signed) {
        if before == 0.0 {
          averagePrice := fill.price;
        } else {
          averagePrice := WeightedAverage(averagePrice, Abs(before), fill.price, Abs(signed));
        }
      } else if remaining == 0.0 {
        averagePrice := 0.0;
      } else if Sign(remaining) != Sign(before) {
        averagePrice := fill.price;
      }
      position := remaining;
      assert Ledger() == ApplyTo(books, fill);
      assert Trades() == AddTrade(tally, books, fill);
      Appended(fills, fill);
      fills := fills + [fill];
    }

    method Observe(executions: seq<Fill>, equity: real, equityAsset: string)
      requires Valid() && AllValid(executions)
      modifies this
      ensures Valid() && fills == old(fills) + executions
      ensures equities == old(equities) + (if equityAsset == asset then [equity] else [])
    {
      for i := 0 to |executions|
        invariant Valid() && fills == old(fills) + executions[..i]
        invariant equities == old(equities)
      {
        ObserveFill(executions[i]);
      }
      ObserveEquity(equity, equityAsset);
    }

    method ObserveEquity(equity: real, equityAsset: string)
      requires Valid()
      modifies `peak, `maxDrawdown, `maxDrawdownPct, `equities
      ensures Valid()
      ensures equities == old(equities) + (if equityAsset == asset then [equity] else [])
    {
      if equityAsset == asset {
        MarkEquity(equity);
      }
    }

    method MarkEquity(equity: real)
      requires Valid()
      modifies `peak, `maxDrawdown, `maxDrawdownPct, `equities
      ensures Valid() && equities == old(equities) + [equity]
    {
      hide Percent, Track, TallyOf, FoldFills, AllValid;
      TrackAppended(initial, equities, equity);
      if equity > peak {
        peak := equity;
      }
      var drawdown := peak - equity;
      if drawdown > maxDrawdown {
        maxDrawdown := drawdown;
        if peak > 0.0 {
          maxDrawdownPct := Percent(drawdown, peak);
        }
      }
      equities := equities + [equity];
    }

    /** The final metrics; `lastPrice` is absent when no candle was seen. */
    method Finalize(equity: real, lastPrice: Option<real>) returns (m: Metrics)
      requires Valid()
      ensures m.finalEquity == equity && m.totalPnL == equity - initial
      ensures m.realized == FoldFills(FLAT, fills).realized
      ensures lastPrice.None? ==> m.unrealized == 0.0
      ensures lastPrice.Some? ==>
                && m.realized + m.unrealized == MarkedValue(FoldFills(FLAT, fills), lastPrice.value)
                && Abs(m.realized + m.unrealized - CashWorth(fills, lastPrice.value)) <= RoundingBound(fills)
                && (ExactAverages(FLAT, fills) ==> m.realized + m.unrealized == CashWorth(fills, lastPrice.value))
      ensures IsLargestFall(m.maxDrawdown, Curve(initial, equities))
      ensures exists j: nat :: FirstReaches(m.maxDrawdown, Curve(initial, equities), j) &&
                               m.maxDrawdownPercent == PercentAt(Curve(initial, equities), j)
      ensures m.returnPercent == if initial == 0.0 then 0.0 else Percent(m.totalPnL, initial)
      ensures m.closedTrades == TallyOf(fills).closed
      ensures m.closedTrades > 0 ==> m.winRate == Percent(TallyOf(fills).winning as real, m.closedTrades as real)
      ensures 0.0 <= m.winRate <= 100.0
      ensures m.profitFactor.None? <==> TallyOf(fills).loss == 0.0 && TallyOf(fills).profit > 0.0
      ensures TallyOf(fills).loss != 0.0 ==> m.profitFactor == Some(Div(TallyOf(fills).profit, TallyOf(fills).loss))
    {
      hide Percent, Div, Spread, TallyOf, FoldFills, CashWorth, RoundingBound, ExactAverages, IsLargestFall,
           FirstReaches, PercentAt, Track;
      var pnl := equity - initial;
      var unrealized := 0.0;
      if lastPrice.Some? && position != 0.0 {
        unrealized := Spread(averagePrice, lastPrice.value, position);
      }
      var returnPct := if initial == 0.0 then 0.0 else Percent(pnl, initial);
      var winRate := if closedTrades == 0 then 0.0
                     else Percent(winningTrades as real, closedTrades as real);
      var factor := if grossLoss == 0.0 then (if grossProfit > 0.0 then None else Some(0.0))
                    else Some(Div(grossProfit, grossLoss));
      m := Metrics(equity, pnl, realized, unrealized, returnPct, maxDrawdown, maxDrawdownPct,
                   closedTrades, winRate, factor);
      DrawdownIsLargestFall(initial, equities);
      TallyBalances(fills);
      RateIsPercentage(winningTrades, closedTrades);
      if lastPrice.Some? {
        MarkedProfit(fills, lastPrice.value);
        EmptySpread(Ledger().position, lastPrice.value);
      }
    }
  }

  lemma {:induction false} TrackAppended(initial: real, equities: seq<real>, equity: real)
    ensures Track(initial, equities + [equity]) == Drawdowns.ObserveEquity(Track(initial, equities), equity)
  {
    assert (equities + [equity])[..|equities|] == equities;
  }

  lemma {:induction false} RateIsPercentage(part: nat, whole: nat)
    requires part <= whole
    ensures whole > 0 ==> 0.0 <= Percent(part as real, whole as real) <= 100.0
  {
    if whole > 0 {
      var rate := UnitQuotient(part as real, whole as real);
      RoundIsExact(0);
      RoundIsExact(10000000000000000);
      RoundIsMonotone(0.0, rate);
      RoundIsMonotone(rate, 1.0);
      hide Round;
    }
  }

  lemma {:induction false} UnitQuotient(part: real, whole: real) returns (rate: real)
    requires 0.0 <= part <= whole && whole > 0.0
    ensures rate == part / whole && 0.0 <= rate <= 1.0
  {
    rate := part / whole;
    MulDiv(part, whole);
  }

  lemma {:induction false} Appended(fills: seq<Fill>, fill: Fill)
    requires AllValid(fills) && fill.Valid()
    ensures AllValid(fills + [fill])
    ensures FoldFills(FLAT, fills + [fill]) == ApplyTo(FoldFills(FLAT, fills), fill)
    ensures TallyOf(fills + [fill]) == AddTrade(TallyOf(fills), FoldFills(FLAT, fills), fill)
  {
    hide ApplyTo, AddTrade;
    assert (fills + [fill])[..|fills|] == fills;
  }
}
