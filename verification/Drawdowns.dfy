/** The online drawdown of an equity curve and what it means over the whole curve. */
module Drawdowns {
  import opened Decimals

  datatype Tracker = Tracker(peak: real, maxDrawdown: real, percent: real)

  function Percent(part: real, whole: real): real
    requires whole != 0.0
  {
    Div(part, whole) * 100.0
  }

  /** A percentage is a hundred times the quotient, rounded before it is scaled. */
  lemma PercentIsQuotient(part: real, whole: real)
    requires whole != 0.0
    ensures Abs(Percent(part, whole) - 100.0 * (part / whole)) <= 100.0 * EPS
  {
    hide Div;
  }

  function ObserveEquity(t: Tracker, equity: real): Tracker {
    var peak := if equity > t.peak then equity else t.peak;
    var drawdown := peak - equity;
    if drawdown > t.maxDrawdown then
      Tracker(peak, drawdown, if peak > 0.0 then Percent(drawdown, peak) else t.percent)
    else Tracker(peak, t.maxDrawdown, t.percent)
  }

  function Track(initial: real, equities: seq<real>): Tracker {
    if equities == [] then Tracker(initial, 0.0, 0.0)
    else ObserveEquity(Track(initial, equities[..|equities| - 1]), equities[|equities| - 1])
  }

  /** The curve starts with the initial cash. */
  function Curve(initial: real, equities: seq<real>): (s: seq<real>)
    ensures |s| == |equities| + 1
  {
    [initial] + equities
  }

  function Highest(s: seq<real>): (m: real)
    requires s != []
    ensures m in s && forall i :: 0 <= i < |s| ==> s[i] <= m
  {
    if |s| == 1 then s[0] else Max(Highest(s[..|s| - 1]), s[|s| - 1])
  }

  /** How far point `j` lies below the highest point up to it. */
  function DropAt(s: seq<real>, j: nat): real
    requires j < |s|
  {
    Highest(s[..j + 1]) - s[j]
  }

  /** The largest fall from an earlier point of the curve to a later one. */
  ghost predicate IsLargestFall(d: real, s: seq<real>) {
    && (exists i, j :: 0 <= i <= j < |s| && s[i] - s[j] == d)
    && (forall i, j :: 0 <= i <= j < |s| ==> s[i] - s[j] <= d)
  }

  /** The first moment the largest drop is reached. */
  ghost predicate FirstReaches(d: real, s: seq<real>, j: nat) {
    && j < |s| && DropAt(s, j) == d
    && forall k :: 0 <= k < j ==> DropAt(s, k) < d
  }

  function PercentAt(s: seq<real>, j: nat): real
    requires j < |s|
  {
    var peak := Highest(s[..j + 1]);
    if peak > 0.0 then Percent(DropAt(s, j), peak) else 0.0
  }

  lemma {:induction false} FallsAreDrops(s: seq<real>, i: nat, j: nat)
    requires i <= j < |s|
    ensures s[i] - s[j] <= DropAt(s, j)
  {
    assert s[..j + 1][i] == s[i];
  }

  lemma {:induction false} DropsAreFalls(s: seq<real>, j: nat) returns (i: nat)
    requires j < |s|
    ensures i <= j && s[i] - s[j] == DropAt(s, j)
  {
    i :| 0 <= i < |s[..j + 1]| && s[..j + 1][i] == Highest(s[..j + 1]);
  }

  lemma {:induction false} DropsOfPrefix(s: seq<real>, x: real, j: nat)
    requires j < |s|
    ensures DropAt(s + [x], j) == DropAt(s, j) && Highest((s + [x])[..j + 1]) == Highest(s[..j + 1])
  {
    assert (s + [x])[..j + 1] == s[..j + 1];
  }

  lemma {:induction false} HighestGrows(s: seq<real>, x: real)
    requires s != []
    ensures Highest(s + [x]) == Max(Highest(s), x)
  {
    assert (s + [x])[..|s|] == s;
  }

  lemma {:induction false} HighestOfPrefix(s: seq<real>, j: nat)
    requires j < |s|
    ensures Highest(s[..j + 1]) <= Highest(s)
  {
    assert Highest(s[..j + 1]) in s[..j + 1];
  }

  /** What the tracker knows about the curve so far. */
  ghost predicate Fits(t: Tracker, s: seq<real>, first: nat)
    requires s != []
  {
    && t.peak == Highest(s)
    && (forall k :: 0 <= k < |s| ==> DropAt(s, k) <= t.maxDrawdown)
    && FirstReaches(t.maxDrawdown, s, first)
    && t.percent == PercentAt(s, first)
  }

  lemma {:induction false} FitsStep(t: Tracker, s: seq<real>, x: real, first: nat) returns (next: nat)
    requires s != [] && Fits(t, s, first)
    ensures Fits(ObserveEquity(t, x), s + [x], next)
  {
    hide Percent, Highest;
    var s', n := s + [x], |s|;
    HighestGrows(s, x);
    assert s'[..n + 1] == s';
    assert DropAt(s', n) == Max(t.peak, x) - x;
    forall k | 0 <= k < n ensures DropAt(s', k) == DropAt(s, k) {
      DropsOfPrefix(s, x, k);
    }
    DropsOfPrefix(s, x, first);
    if DropAt(s', n) > t.maxDrawdown {
      next := n;
      HighestOfPrefix(s, first);
      NonPositivePeaks(t, s, first);
    } else {
      next := first;
    }
  }

  /** While the peak is not positive no percentage has ever been recorded. */
  lemma {:induction false} NonPositivePeaks(t: Tracker, s: seq<real>, first: nat)
    requires s != [] && Fits(t, s, first)
    ensures t.peak <= 0.0 ==> t.percent == 0.0
  {
    hide Percent;
    HighestOfPrefix(s, first);
  }

  lemma {:induction false} TrackFits(initial: real, equities: seq<real>) returns (first: nat)
    ensures Fits(Track(initial, equities), Curve(initial, equities), first)
  {
    if equities == [] {
      first := 0;
      assert Curve(initial, equities)[..1] == [initial];
      RoundIsExact(0);
    } else {
      hide Fits, ObserveEquity;
      var n := |equities| - 1;
      first := TrackFits(initial, equities[..n]);
      first := FitsStep(Track(initial, equities[..n]), Curve(initial, equities[..n]), equities[n], first);
      assert Curve(initial, equities) == Curve(initial, equities[..n]) + [equities[n]];
    }
  }

  /** The reported drawdown is the largest fall between any two points of the curve, and
      the reported percentage is that fall over the peak when it was first reached. */
  lemma {:induction false} DrawdownIsLargestFall(initial: real, equities: seq<real>)
    ensures var s, t := Curve(initial, equities), Track(initial, equities);
            && IsLargestFall(t.maxDrawdown, s)
            && exists j: nat :: FirstReaches(t.maxDrawdown, s, j) && t.percent == PercentAt(s, j)
  {
    var s, t := Curve(initial, equities), Track(initial, equities);
    var j := TrackFits(initial, equities);
    var i := DropsAreFalls(s, j);
    forall i, j | 0 <= i <= j < |s| ensures s[i] - s[j] <= t.maxDrawdown {
      FallsAreDrops(s, i, j);
    }
  }
}
