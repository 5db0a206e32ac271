/** Average-cost accounting of fills. Three places of the system keep the same books:
    the statistics reducer (`ApplyFill`), the backtest report (a class, in Report.dfy,
    proved against `FoldFills`) and the SQLite projection (`ApplyLong`). */
module Accounting {
  import opened Decimals

  datatype Side = Buy | Sell

  datatype Fill = Fill(side: Side, quantity: real, price: real) {
    /** What execution validation guarantees of every fill. */
    predicate Valid() {
      quantity > 0.0 && price > 0.0
    }

    function Signed(): real {
      if side == Buy then quantity else -quantity
    }

    /** Cash paid for the fill; negative when a sale brings cash in. */
    function Cost(): real {
      Signed() * price
    }
  }

  /** Quantity is signed: positive is long, negative is short. */
  datatype Position = Position(quantity: real, average: real)

  datatype Books = Books(position: Position, realized: real)

  const FLAT := Books(Position(0.0, 0.0), 0.0)

  /** True when a fill extends a non-empty position, so the average is recomputed. */
  predicate Averages(position: Position, signed: real) {
    position.quantity != 0.0 && Sign(position.quantity) == Sign(signed)
  }

  /** The price of two lots held together; it restores their joint cost up to rounding. */
  function WeightedAverage(average: real, held: real, price: real, quantity: real): (r: real)
    requires held >= 0.0 && quantity > 0.0
    ensures Abs((held + quantity) * r - (average * held + price * quantity)) <= EPS * (held + quantity)
  {
    hide Div;
    var cost := average * held + price * quantity;
    var total := held + quantity;
    DivRestores(cost, total);
    Div(cost, total)
  }

  /** What closing `closing` units of the position at `price` realizes. */
  function ClosingGain(position: Position, price: real, closing: real): real {
    if position.quantity > 0.0 then Spread(position.average, price, closing)
    else Spread(price, position.average, closing)
  }

  /** The profit of buying `quantity` at one price and selling it at another. */
  function Spread(bought: real, sold: real, quantity: real): real {
    (sold - bought) * quantity
  }

  function ApplyFill(position: Position, signed: real, price: real, realized: real): Books
    requires signed != 0.0
  {
    var held := Abs(position.quantity);
    if position.quantity == 0.0 || Sign(position.quantity) == Sign(signed) then
      var average :=
        if position.quantity == 0.0 then price
        else WeightedAverage(position.average, held, price, Abs(signed));
      Books(Position(position.quantity + signed, average), realized)
    else
      var gain := ClosingGain(position, price, Min(held, Abs(signed)));
      var remaining := position.quantity + signed;
      if remaining == 0.0 then Books(Position(0.0, 0.0), realized + gain)
      else if Sign(remaining) == Sign(position.quantity) then
        Books(Position(remaining, position.average), realized + gain)
      else Books(Position(remaining, price), realized + gain)
  }

  function ApplyTo(books: Books, fill: Fill): Books
    requires fill.Valid()
  {
    ApplyFill(books.position, fill.Signed(), fill.price, books.realized)
  }

  predicate AllValid(fills: seq<Fill>) {
    forall i :: 0 <= i < |fills| ==> fills[i].Valid()
  }

  function FoldFills(books: Books, fills: seq<Fill>): Books
    requires AllValid(fills)
  {
    if fills == [] then books
    else ApplyTo(FoldFills(books, fills[..|fills| - 1]), fills[|fills| - 1])
  }

  // ---------------------------------------------------------------------------
  // Profit against cash, for every fill sequence
  // ---------------------------------------------------------------------------

  function NetQuantity(fills: seq<Fill>): real {
    if fills == [] then 0.0
    else NetQuantity(fills[..|fills| - 1]) + fills[|fills| - 1].Signed()
  }

  /** Money received for sales less money paid for purchases. */
  function CashFlow(fills: seq<Fill>): real {
    if fills == [] then 0.0
    else CashFlow(fills[..|fills| - 1]) - fills[|fills| - 1].Cost()
  }

  /** The sum of absolute positions held just after each averaging step. */
  function AveragedVolume(books: Books, fills: seq<Fill>): real
    requires AllValid(fills)
  {
    if fills == [] then 0.0
    else
      AveragedVolume(books, fills[..|fills| - 1]) +
      AveragedStep(FoldFills(books, fills[..|fills| - 1]), fills[|fills| - 1])
  }

  function AveragedStep(books: Books, fill: Fill): real {
    if Averages(books.position, fill.Signed()) then Abs(books.position.quantity + fill.Signed()) else 0.0
  }

  /** The average a fill would leave behind if division were exact. */
  function ExactAverage(position: Position, fill: Fill): real
    requires position.quantity != 0.0 && fill.Valid()
  {
    var held := Abs(position.quantity);
    (position.average * held + fill.price * fill.quantity) / (held + fill.quantity)
  }

  predicate ExactAverages(books: Books, fills: seq<Fill>)
    requires AllValid(fills)
  {
    fills == [] ||
    (var before := FoldFills(books, fills[..|fills| - 1]);
     var last := fills[|fills| - 1];
     ExactAverages(books, fills[..|fills| - 1]) &&
     (Averages(before.position, last.Signed()) ==>
        FoldFills(books, fills).position.average == ExactAverage(before.position, last)))
  }

  /** Realized profit less the cost of what is still held. */
  function Drift(books: Books): real {
    books.realized - books.position.quantity * books.position.average
  }

  lemma {:induction false} QuantityIsNet(books: Books, fills: seq<Fill>)
    requires AllValid(fills)
    ensures FoldFills(books, fills).position.quantity == books.position.quantity + NetQuantity(fills)
  {
    if fills != [] {
      QuantityIsNet(books, fills[..|fills| - 1]);
    }
  }

  /** Closing part or all of a position realizes its gain and keeps the drift exact. */
  lemma {:induction false} ClosingDrift(p: Position, realized: real, signed: real, price: real)
    requires p.quantity != 0.0 && Sign(p.quantity) != Sign(signed) && signed != 0.0
    ensures var remaining := p.quantity + signed;
            var exact := realized - p.quantity * p.average - signed * price;
            && (Abs(signed) <= Abs(p.quantity) ==>
                  realized + ClosingGain(p, price, Abs(signed)) - remaining * p.average == exact)
            && (Abs(signed) >= Abs(p.quantity) ==>
                  realized + ClosingGain(p, price, Abs(p.quantity)) - remaining * price == exact)
  {
    var gap := price - p.average;
    assert signed * gap == signed * price - signed * p.average;
    assert p.quantity * gap == p.quantity * price - p.quantity * p.average;
  }

  lemma {:induction false} StepDrift(books: Books, fill: Fill)
    requires fill.Valid()
    ensures var after := ApplyTo(books, fill);
            var exact := Drift(books) - fill.Cost();
            Abs(Drift(after) - exact) <= EPS * AveragedStep(books, fill) &&
            (!Averages(books.position, fill.Signed()) ==> Drift(after) == exact)
  {
    var p, signed, price := books.position, fill.Signed(), fill.price;
    if Averages(p, signed) {
      AveragingDrift(books, fill);
    } else if p.quantity != 0.0 {
      ClosingDrift(p, books.realized, signed, price);
      hide ClosingGain;
    }
  }

  /** A long position of `quantity` extended by `signed`; a short one has every sign reversed. */
  lemma {:induction false} SignedCost(quantity: real, average: real, signed: real, price: real, next: real)
    ensures -(quantity + signed) * next == -((quantity + signed) * next)
    ensures average * -quantity + price * -signed == -(quantity * average + signed * price)
    ensures average * quantity + price * signed == quantity * average + signed * price
  {
  }

  lemma {:induction false} AveragingDrift(books: Books, fill: Fill)
    requires fill.Valid() && Averages(books.position, fill.Signed())
    ensures var after := ApplyTo(books, fill);
            Abs(Drift(after) - (Drift(books) - fill.Cost()))
            <= EPS * Abs(after.position.quantity)
  {
    hide WeightedAverage;
    var p, signed := books.position, fill.Signed();
    SignedCost(p.quantity, p.average, signed, fill.price, ApplyTo(books, fill).position.average);
  }

  lemma {:induction false} Accumulate(d0: real, d1: real, d2: real, paid: real, v: real, w: real)
    requires Abs(d1 - d0) <= EPS * v
    requires Abs(d2 - (d1 - paid)) <= EPS * w
    ensures Abs(d2 - (d0 - paid)) <= EPS * (v + w)
  {
    assert EPS * (v + w) == EPS * v + EPS * w;
  }

  /** Marked profit is the cash that changed hands plus the marked holding, up to half a
      unit in the last place for every unit held after an averaging step. */
  lemma {:induction false} ProfitFollowsCash(books: Books, fills: seq<Fill>)
    requires AllValid(fills)
    ensures Abs(Drift(FoldFills(books, fills)) - (Drift(books) + CashFlow(fills)))
            <= EPS * AveragedVolume(books, fills)
  {
    if fills != [] {
      hide ApplyTo, Drift, AveragedStep, Fill.Cost;
      var init, last := fills[..|fills| - 1], fills[|fills| - 1];
      var before := FoldFills(books, init);
      ProfitFollowsCash(books, init);
      StepDrift(before, last);
      Accumulate(Drift(books) + CashFlow(init), Drift(before), Drift(FoldFills(books, fills)),
                 last.Cost(), AveragedVolume(books, init), AveragedStep(before, last));
    }
  }

  lemma {:induction false} ProfitIsExact(books: Books, fills: seq<Fill>)
    requires AllValid(fills) && ExactAverages(books, fills)
    ensures Drift(FoldFills(books, fills)) == Drift(books) + CashFlow(fills)
  {
    if fills != [] {
      hide ApplyTo, Drift, ExactAverage, Fill.Cost;
      var before, last := FoldFills(books, fills[..|fills| - 1]), fills[|fills| - 1];
      ProfitIsExact(books, fills[..|fills| - 1]);
      if Averages(before.position, last.Signed()) {
        ExactStep(before, last);
      } else {
        StepDrift(before, last);
      }
    }
  }

  lemma {:induction false} ExactStep(books: Books, fill: Fill)
    requires fill.Valid() && Averages(books.position, fill.Signed())
    requires ApplyTo(books, fill).position.average == ExactAverage(books.position, fill)
    ensures Drift(ApplyTo(books, fill)) == Drift(books) - fill.Cost()
  {
    hide WeightedAverage;
    var p, signed := books.position, fill.Signed();
    MulDiv(p.average * Abs(p.quantity) + fill.price * fill.quantity, Abs(p.quantity) + fill.quantity);
    SignedCost(p.quantity, p.average, signed, fill.price, ExactAverage(p, fill));
  }

  /** Realized profit plus what the open position gains at the mark price. */
  function MarkedValue(books: Books, mark: real): real {
    books.realized + Spread(books.position.average, mark, books.position.quantity)
  }

  /** Cash that changed hands plus the holding valued at the mark price. */
  function CashWorth(fills: seq<Fill>, mark: real): real {
    CashFlow(fills) + NetQuantity(fills) * mark
  }

  function RoundingBound(fills: seq<Fill>): real
    requires AllValid(fills)
  {
    EPS * AveragedVolume(FLAT, fills)
  }

  /** The identity as a reader of the statistics sees it, at any mark price. */
  lemma {:induction false} MarkedProfit(fills: seq<Fill>, mark: real)
    requires AllValid(fills)
    ensures var profit := MarkedValue(FoldFills(FLAT, fills), mark);
            && Abs(profit - CashWorth(fills, mark)) <= RoundingBound(fills)
            && (ExactAverages(FLAT, fills) ==> profit == CashWorth(fills, mark))
  {
    hide FoldFills, ApplyTo, ExactAverages, CashFlow, AveragedVolume, MarkedValue, CashWorth, NetQuantity, Drift;
    var books := FoldFills(FLAT, fills);
    ProfitFollowsCash(FLAT, fills);
    QuantityIsNet(FLAT, fills);
    MarkIdentity(books, fills, mark);
    EmptyDrift();
    if ExactAverages(FLAT, fills) {
      ProfitIsExact(FLAT, fills);
    }
  }

  lemma {:induction false} EmptyDrift()
    ensures Drift(FLAT) == 0.0
  {
  }

  lemma {:induction false} MarkIdentity(books: Books, fills: seq<Fill>, mark: real)
    requires AllValid(fills) && books.position.quantity == NetQuantity(fills)
    ensures MarkedValue(books, mark) - CashWorth(fills, mark) == Drift(books) - CashFlow(fills)
  {
    hide CashFlow, NetQuantity;
    var q, average := books.position.quantity, books.position.average;
    var gain := (mark - average) * q;
    var worth := NetQuantity(fills) * mark;
    assert worth == q * mark;
    assert gain == worth - q * average;
  }

  lemma {:induction false} SameProduct(x: real, y: real, k: real)
    ensures x == y ==> x * k == y * k
    ensures x * k == k * x
  {
  }

  // ---------------------------------------------------------------------------
  // The long-only projection in SQLite
  // ---------------------------------------------------------------------------

  datatype LongStep = LongStep(position: Position, realized: real, closedTrade: bool)

  /** One fill against the stored row; a sale of more than is held is refused. */
  function ApplyLong(row: Option<Position>, fill: Fill): Option<LongStep>
    requires fill.Valid() && (row.Some? ==> row.value.quantity >= 0.0)
  {
    var position := if row.Some? then row.value.quantity else 0.0;
    var average := if row.Some? then row.value.average else fill.price;
    if fill.side == Buy then
      var next := position + fill.quantity;
      var nextAverage :=
        if position == 0.0 then fill.price
        else WeightedAverage(average, position, fill.price, fill.quantity);
      Some(LongStep(Position(next, nextAverage), 0.0, false))
    else if fill.quantity > position then None
    else Some(LongStep(Position(position - fill.quantity, average),
                       Spread(average, fill.price, fill.quantity), true))
  }

  datatype LongBooks = LongBooks(row: Option<Position>, realized: real)

  function FoldLong(fills: seq<Fill>): (r: Option<LongBooks>)
    requires AllValid(fills)
    ensures r.Some? && r.value.row.Some? ==> r.value.row.value.quantity >= 0.0
  {
    if fills == [] then Some(LongBooks(None, 0.0))
    else
      var before := FoldLong(fills[..|fills| - 1]);
      if before.None? then None
      else
        var step := ApplyLong(before.value.row, fills[|fills| - 1]);
        if step.None? then None
        else Some(LongBooks(Some(step.value.position), before.value.realized + step.value.realized))
  }

  /** No prefix of the fills ever sells more than was bought. */
  predicate NeverShort(fills: seq<Fill>) {
    forall k :: 0 <= k <= |fills| ==> NetQuantity(fills[..k]) >= 0.0
  }

  lemma {:induction false} NeverShortStep(fills: seq<Fill>)
    requires fills != []
    ensures NeverShort(fills) <==> NeverShort(fills[..|fills| - 1]) && NetQuantity(fills) >= 0.0
  {
    var n := |fills|;
    var init := fills[..n - 1];
    hide NetQuantity;
    assert fills[..n] == fills;
    forall k | 0 <= k < n ensures NetQuantity(init[..k]) == NetQuantity(fills[..k]) {
      assert init[..k] == fills[..k];
    }
  }

  predicate Agree(long: LongBooks, books: Books) {
    var p := books.position;
    && long.realized == books.realized
    && match long.row
       case None => p == Position(0.0, 0.0)
       case Some(row) => row.quantity == p.quantity >= 0.0 && (p.quantity != 0.0 ==> row.average == p.average)
  }

  lemma {:induction false} AgreementStep(long: LongBooks, books: Books, fill: Fill)
    requires fill.Valid() && Agree(long, books)
    ensures ApplyLong(long.row, fill).Some? <==> books.position.quantity + fill.Signed() >= 0.0
    ensures ApplyLong(long.row, fill).Some? ==>
              var step := ApplyLong(long.row, fill).value;
              Agree(LongBooks(Some(step.position), long.realized + step.realized), ApplyTo(books, fill))
  {
    hide WeightedAverage, Spread;
  }

  /** The SQLite projection accepts exactly the sequences that never go short, and on
      those it agrees with the reducer: same quantity, same realized total, and the same
      average whenever something is held. */
  lemma {:induction false} ProjectionAgreesWithReducer(fills: seq<Fill>)
    requires AllValid(fills)
    ensures FoldLong(fills).Some? <==> NeverShort(fills)
    ensures FoldLong(fills).Some? ==> Agree(FoldLong(fills).value, FoldFills(FLAT, fills))
  {
    hide ApplyTo, ApplyLong, NeverShort;
    if fills == [] {
      EmptyNeverShort();
    } else {
      var init := fills[..|fills| - 1];
      ProjectionAgreesWithReducer(init);
      NeverShortStep(fills);
      QuantityIsNet(FLAT, init);
      if FoldLong(init).Some? {
        AgreementStep(FoldLong(init).value, FoldFills(FLAT, init), fills[|fills| - 1]);
      }
    }
  }

  lemma {:induction false} EmptyNeverShort()
    ensures NeverShort([])
  {
    var none: seq<Fill> := [];
    assert forall k :: 0 <= k <= |none| ==> none[..k] == none;
  }

  lemma {:induction false} EmptySpread(p: Position, mark: real)
    ensures p.quantity == 0.0 ==> Spread(p.average, mark, p.quantity) == 0.0
  {
  }
}
