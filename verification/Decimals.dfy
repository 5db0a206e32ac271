/** Decimal arithmetic of the ledger: exact sums and products over `real`, and the
    one inexact operation, division to sixteen decimal places. */
module Decimals {

  datatype Option<+T> = None | Some(value: T)

  datatype Result<+T, +E> = Ok(value: T) | Err(error: E) {
    predicate IsFailure() {
      Err?
    }

    function PropagateFailure<U>(): Result<U, E>
      requires Err?
    {
      Err(error)
    }

    function Extract(): T
      requires Ok?
    {
      value
    }
  }

  /** Ten to the number of decimal places a quotient keeps. */
  const SCALE: real := 10000000000000000.0

  /** Half a unit in the last kept place. */
  const EPS: real := 0.00000000000000005

  function Abs(x: real): (r: real)
    ensures r >= 0.0
    ensures r == x || r == -x
  {
    if x >= 0.0 then x else -x
  }

  function Min(x: real, y: real): (r: real)
    ensures r <= x && r <= y && (r == x || r == y)
  {
    if x <= y then x else y
  }

  function Max(x: real, y: real): (r: real)
    ensures r >= x && r >= y && (r == x || r == y)
  {
    if x >= y then x else y
  }

  function Sign(x: real): int {
    if x > 0.0 then 1 else if x < 0.0 then -1 else 0
  }

  /** Rounds to sixteen places, ties away from zero. */
  function Round(x: real): (r: real)
    ensures Abs(r - x) <= EPS
  {
    if x >= 0.0 then (x * SCALE + 0.5).Floor as real / SCALE
    else -((0.5 - x * SCALE).Floor as real / SCALE)
  }

  /** Decimal division: the exact quotient, rounded. */
  function Div(x: real, y: real): (r: real)
    requires y != 0.0
    ensures Abs(r - x / y) <= EPS
  {
    Round(x / y)
  }

  /** A value that needs no more than sixteen decimal places. */
  predicate Representable(x: real) {
    x * SCALE == (x * SCALE).Floor as real
  }

  lemma RoundIsExact(n: int)
    ensures Round(n as real / SCALE) == n as real / SCALE
  {
    var x := n as real / SCALE;
    assert x * SCALE == n as real;
    if n >= 0 {
      assert (n as real + 0.5).Floor == n;
    } else {
      assert (0.5 - n as real).Floor == -n;
    }
  }

  /** A rounded value is representable, rounding treats both signs alike, and a tie goes away
      from zero. */
  lemma RoundIsSymmetric(x: real, n: nat)
    ensures Representable(Round(x))
    ensures Round(-x) == -Round(x)
    ensures Round((n as real + 0.5) / SCALE) == (n + 1) as real / SCALE
  {
    var m := if x >= 0.0 then (x * SCALE + 0.5).Floor else -((0.5 - x * SCALE).Floor);
    assert Round(x) == m as real / SCALE;
    assert Round(x) * SCALE == m as real;
    assert (n as real + 0.5) / SCALE * SCALE + 0.5 == (n + 1) as real;
  }

  /** Rounding never reverses an order. */
  lemma RoundIsMonotone(x: real, y: real)
    requires x <= y
    ensures Round(x) <= Round(y)
  {
    if x >= 0.0 {
      assert (x * SCALE + 0.5).Floor <= (y * SCALE + 0.5).Floor;
    } else if y < 0.0 {
      assert (0.5 - y * SCALE).Floor <= (0.5 - x * SCALE).Floor;
    }
  }

  lemma MulDiv(x: real, y: real)
    requires y != 0.0
    ensures y * (x / y) == x
  {
  }

  lemma SelfQuotient(x: real)
    requires x != 0.0
    ensures x / x == 1.0
  {
  }

  lemma ErrorBound(total: real, next: real, exact: real, eps: real)
    requires total >= 0.0 && -eps <= next - exact <= eps
    ensures -(eps * total) <= total * next - total * exact <= eps * total
  {
    var error := next - exact;
    assert total * next - total * exact == total * error;
    assert total * (eps - error) >= 0.0;
    assert total * (eps + error) >= 0.0;
  }

  /** Multiplying a quotient back by its divisor restores the dividend, up to half a unit
      in the last place for every unit of the divisor. */
  lemma DivRestores(cost: real, total: real)
    requires total > 0.0
    ensures Abs(total * Div(cost, total) - cost) <= EPS * total
  {
    hide Div;
    MulDiv(cost, total);
    ErrorBound(total, Div(cost, total), cost / total, EPS);
  }
}
