/** The moving-average crossover: a step over a short window of closes, shown to follow a
    definition over the whole history of closes. */
module MovingAverage {
  import opened Decimals

  datatype Config = Config(fast: nat, slow: nat, interval: int) {
    predicate Valid() {
      0 < fast < slow && interval > 0
    }
  }

  datatype Event = CandleClose(interval: int, complete: bool, close: real) | OtherEvent

  datatype State = State(closes: seq<real>, relation: int, hasRelation: bool)

  datatype Signal = BuySignal | SellSignal

  datatype StepResult = StepResult(state: State, signals: seq<Signal>)

  const INITIAL := State([], 0, false)

  predicate Matches(config: Config, event: Event) {
    event.CandleClose? && event.complete && event.interval == config.interval
  }

  function Sum(values: seq<real>): real {
    if values == [] then 0.0 else Sum(values[..|values| - 1]) + values[|values| - 1]
  }

  function Mean(values: seq<real>): real
    requires values != []
  {
    Div(Sum(values), |values| as real)
  }

  /** The last `n` values, or all of them. */
  function Last(values: seq<real>, n: nat): (r: seq<real>)
    ensures |r| == if n <= |values| then n else |values|
    ensures forall i :: 0 <= i < |r| ==> r[i] == values[|values| - |r| + i]
  {
    if n <= |values| then values[|values| - n..] else values
  }

  function Compare(x: real, y: real): int {
    if x < y then -1 else if x == y then 0 else 1
  }

  /** The relation of the two means after a whole history of closes. */
  function Relation(config: Config, history: seq<real>): int
    requires config.Valid() && |history| >= config.slow
  {
    Compare(Mean(Last(history, config.fast)), Mean(Last(history, config.slow)))
  }

  function OnEvent(config: Config, state: State, event: Event): StepResult
    requires config.Valid()
  {
    if !Matches(config, event) then StepResult(state, [])
    else
      var closes := Last(state.closes + [event.close], config.slow);
      if |closes| != config.slow then StepResult(state.(closes := closes), [])
      else
        var relation := Compare(Mean(Last(closes, config.fast)), Mean(closes));
        var buys := if state.hasRelation && state.relation <= 0 && relation > 0 then [BuySignal] else [];
        var sells := if state.hasRelation && state.relation >= 0 && relation < 0 then [SellSignal] else [];
        StepResult(State(closes, relation, true), buys + sells)
  }

  function StateAfter(config: Config, events: seq<Event>): State
    requires config.Valid()
  {
    if events == [] then INITIAL
    else OnEvent(config, StateAfter(config, events[..|events| - 1]), events[|events| - 1]).state
  }

  /** Closes of the events the strategy takes part in. */
  function History(config: Config, events: seq<Event>): seq<real> {
    if events == [] then []
    else
      var last := events[|events| - 1];
      History(config, events[..|events| - 1]) + if Matches(config, last) then [last.close] else []
  }

  /** The state a whole history calls for. */
  function StateFor(config: Config, history: seq<real>): State
    requires config.Valid()
  {
    if |history| < config.slow then State(history, 0, false)
    else State(Last(history, config.slow), Relation(config, history), true)
  }

  /** The signals a whole history calls for at its last close: one when the relation of
      the means changed strictly to the other side, none otherwise. */
  function SignalsFor(config: Config, history: seq<real>): seq<Signal>
    requires config.Valid()
  {
    if |history| <= config.slow then []
    else
      var was, now := Relation(config, history[..|history| - 1]), Relation(config, history);
      if was <= 0 && now > 0 then [BuySignal]
      else if was >= 0 && now < 0 then [SellSignal]
      else []
  }

  lemma LastOfLast(values: seq<real>, n: nat, m: nat)
    requires n <= m
    ensures Last(Last(values, m), n) == Last(values, n)
  {
  }

  lemma LastOfAppended(values: seq<real>, x: real, n: nat)
    ensures Last(Last(values, n) + [x], n) == Last(values + [x], n)
  {
  }

  /** The windowed step refines the whole-history definition, signals included. */
  lemma {:induction false} StepRefinesHistory(config: Config, history: seq<real>, event: Event)
    requires config.Valid()
    ensures var r := OnEvent(config, StateFor(config, history), event);
            if Matches(config, event) then
              r == StepResult(StateFor(config, history + [event.close]), SignalsFor(config, history + [event.close]))
            else r == StepResult(StateFor(config, history), [])
  {
    hide Mean;
    if Matches(config, event) {
      var longer := history + [event.close];
      assert longer[..|history|] == history;
      LastOfAppended(history, event.close, config.slow);
      LastOfLast(longer, config.fast, config.slow);
    }
  }

  /** After any events the state holds the last closes and the relation of the means, and
      the next event emits exactly the signals of the history it completes. */
  lemma {:induction false} WindowRefinesHistory(config: Config, events: seq<Event>, next: Event)
    requires config.Valid()
    ensures StateAfter(config, events) == StateFor(config, History(config, events))
    ensures OnEvent(config, StateAfter(config, events), next).signals ==
            if Matches(config, next) then SignalsFor(config, History(config, events) + [next.close]) else []
  {
    hide OnEvent, StateFor, SignalsFor;
    if events == [] {
      EmptyHistory(config);
    } else {
      var init, last := events[..|events| - 1], events[|events| - 1];
      WindowRefinesHistory(config, init, last);
      StepRefinesHistory(config, History(config, init), last);
      assert History(config, init) + [] == History(config, init);
    }
    StepRefinesHistory(config, History(config, events), next);
  }

  lemma EmptyHistory(config: Config)
    requires config.Valid()
    ensures StateFor(config, []) == INITIAL
  {
  }

  /** The strategy takes part in complete candles of its interval and in nothing else. */
  lemma MatchingEvents(config: Config, event: Event)
    ensures Matches(config, event) <==>
              match event
              case CandleClose(interval, complete, _) => complete && interval == config.interval
              case OtherEvent => false
  {
  }

  /** After any events the next matching close buys exactly when there were already enough closes
      and the fast mean, until then no higher than the slow one, is now above it, and sells
      exactly when the fast mean, until then no lower, is now below it. */
  lemma CrossingsEmit(config: Config, events: seq<Event>, next: Event)
    requires config.Valid() && next.CandleClose? && next.complete && next.interval == config.interval
    ensures var before := History(config, events);
            var now, signals := before + [next.close], OnEvent(config, StateAfter(config, events), next).signals;
            if |before| < config.slow then signals == []
            else
              var fastBefore, slowBefore := Mean(Last(before, config.fast)), Mean(Last(before, config.slow));
              var fast, slow := Mean(Last(now, config.fast)), Mean(Last(now, config.slow));
              && (signals == [BuySignal] <==> fastBefore <= slowBefore && fast > slow)
              && (signals == [SellSignal] <==> fastBefore >= slowBefore && fast < slow)
              && (signals == [] || signals == [BuySignal] || signals == [SellSignal])
  {
    hide OnEvent, Mean, History;
    WindowRefinesHistory(config, events, next);
    var before := History(config, events);
    assert (before + [next.close])[..|before|] == before;
  }

  lemma {:induction false} SumJoins(a: seq<real>, b: seq<real>)
    ensures Sum(a + b) == Sum(a) + Sum(b)
  {
    if b == [] {
      assert a + b == a;
    } else {
      assert (a + b)[..|a + b| - 1] == a + b[..|b| - 1];
      SumJoins(a, b[..|b| - 1]);
    }
  }

  /** A mean is the sum of its values over their number, rounded. */
  lemma MeanIsQuotient(values: seq<real>, value: real)
    requires values != []
    ensures Abs(Mean(values) - Sum(values) / |values| as real) <= EPS
    ensures Sum([value]) == value
  {
    hide Round;
    assert [value][..0] == [];
  }

  /** Rounding the means may hide a difference but never invents or reverses one. */
  lemma RelationIsSound(config: Config, history: seq<real>)
    requires config.Valid() && |history| >= config.slow
    ensures var fast, slow := Last(history, config.fast), Last(history, config.slow);
            var x, y := Sum(fast) / |fast| as real, Sum(slow) / |slow| as real;
            && (Mean(fast) > Mean(slow) ==> x > y) && (Mean(fast) < Mean(slow) ==> x < y)
            && (Relation(config, history) > 0 <==> Mean(fast) > Mean(slow))
            && (Relation(config, history) < 0 <==> Mean(fast) < Mean(slow))
  {
    var fast, slow := Last(history, config.fast), Last(history, config.slow);
    var x, y := Sum(fast) / |fast| as real, Sum(slow) / |slow| as real;
    hide Round, Sum, Last;
    if x <= y {
      RoundIsMonotone(x, y);
    }
    if y <= x {
      RoundIsMonotone(y, x);
    }
  }

  /** The loop that computes a mean. */
  method Average(values: seq<real>) returns (mean: real)
    requires values != []
    ensures mean == Mean(values)
  {
    var sum := 0.0;
    for i := 0 to |values|
      invariant sum == Sum(values[..i])
    {
      assert values[..i + 1][..i] == values[..i];
      sum := sum + values[i];
    }
    assert values[..|values|] == values;
    mean := Div(sum, |values| as real);
  }
}
