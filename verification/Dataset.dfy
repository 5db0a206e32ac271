/** The candle dataset: rows are accepted only in strictly increasing time on a fixed
    interval, and what is missing between them is refused, ignored or counted. */
module Dataset {
  import opened Decimals
  import opened Pricing

  /** The largest duration, in nanoseconds; differences of times saturate there. */
  const MAX_DURATION: int := 0x7fff_ffff_ffff_ffff

  datatype GapPolicy = FailOnGap | AllowGaps | MarkGaps

  datatype Meta = Meta(instrument: string, asset: string, interval: int, tick: real, lot: real, policy: GapPolicy) {
    predicate Valid() {
      0 < interval <= MAX_DURATION && tick > 0.0 && lot > 0.0
    }
  }

  /** A record after parsing; times are nanoseconds since the zero time. */
  datatype Row = Malformed | Row(start: int, open: real, high: real, low: real, close: real, volume: real)

  datatype Gap = Gap(previous: int, current: int, missing: int)

  datatype Reader = Reader(row: nat, first: Option<int>, previous: Option<int>, gaps: seq<Gap>)

  datatype RowError = BadRow | NotIncreasing | NotOnInterval | GapFound(missing: int) | BadPrice | BadVolume | BadCandle

  /** What has been read: the reader's fields and the candles it has emitted. */
  datatype Reading = Reading(reader: Reader, candles: seq<Candle>)

  const START := Reading(Reader(0, None, None, []), [])

  function Sub(later: int, earlier: int): int {
    var d := later - earlier;
    if d > MAX_DURATION then MAX_DURATION else if d < -MAX_DURATION - 1 then -MAX_DURATION - 1 else d
  }

  function CandleOf(meta: Meta, row: Row): Candle
    requires row.Row?
  {
    Candle(row.start, row.start + meta.interval, row.open, row.high, row.low, row.close, row.volume)
  }

  function CheckRow(meta: Meta, row: Row): Option<RowError>
    requires meta.Valid() && row.Row?
  {
    if row.open <= 0.0 || row.high <= 0.0 || row.low <= 0.0 || row.close <= 0.0 then Some(BadPrice)
    else if !Aligned(row.open, meta.tick) || !Aligned(row.high, meta.tick) ||
            !Aligned(row.low, meta.tick) || !Aligned(row.close, meta.tick) then Some(BadPrice)
    else if row.volume < 0.0 || !Aligned(row.volume, meta.lot) then Some(BadVolume)
    else if row.start == 0 || !CandleOf(meta, row).Valid() then Some(BadCandle)
    else None
  }

  /** The gap between two accepted starts, or why the second is refused. */
  function Spacing(meta: Meta, previous: int, start: int): Result<Option<Gap>, RowError>
    requires meta.Valid()
  {
    var delta := Sub(start, previous);
    if delta <= 0 then Err(NotIncreasing)
    else if delta == meta.interval then Ok(None)
    else if delta % meta.interval != 0 then Err(NotOnInterval)
    else
      var missing := delta / meta.interval - 1;
      if meta.policy == FailOnGap then Err(GapFound(missing))
      else Ok(Some(Gap(previous, start, missing)))
  }

  function ReadRow(meta: Meta, before: Reading, row: Row): Result<Reading, RowError>
    requires meta.Valid()
  {
    if row.Malformed? then Err(BadRow)
    else
      var r := before.reader;
      var spacing := if r.previous.None? then Ok(None) else Spacing(meta, r.previous.value, row.start);
      if spacing.Err? then Err(spacing.error)
      else
        var bad := CheckRow(meta, row);
        if bad.Some? then Err(bad.value)
        else
          var gaps := if spacing.value.Some? && meta.policy == MarkGaps then r.gaps + [spacing.value.value] else r.gaps;
          var first := if r.first.None? then Some(row.start) else r.first;
          Ok(Reading(Reader(r.row + 1, first, Some(row.start), gaps), before.candles + [CandleOf(meta, row)]))
  }

  function ReadAll(meta: Meta, rows: seq<Row>): Result<Reading, RowError>
    requires meta.Valid()
  {
    if rows == [] then Ok(START)
    else
      var before := ReadAll(meta, rows[..|rows| - 1]);
      if before.Err? then before else ReadRow(meta, before.value, rows[|rows| - 1])
  }

  /** The candle carries the prices and the volume of its row and lasts one interval. */
  predicate Shows(meta: Meta, candle: Candle, row: Row) {
    && row.Row? && candle.start == row.start && candle.end - candle.start == meta.interval
    && candle.open == row.open && candle.high == row.high && candle.low == row.low && candle.close == row.close
    && candle.volume == row.volume
  }

  /** A well-formed row: positive prices in whole ticks, volume in whole lots, extremes that
      enclose open and close, and a time that is not the zero time. */
  predicate Sensible(meta: Meta, row: Row)
    requires meta.Valid()
  {
    && row.Row? && row.start != 0 && row.volume >= 0.0 && Aligned(row.volume, meta.lot)
    && 0.0 < row.low <= row.open <= row.high && row.low <= row.close <= row.high
    && Aligned(row.open, meta.tick) && Aligned(row.high, meta.tick)
    && Aligned(row.low, meta.tick) && Aligned(row.close, meta.tick)
  }

  /** A row follows the previous start by whole intervals, by exactly one where gaps fail. */
  predicate Follows(meta: Meta, previous: int, start: int)
    requires meta.Valid()
  {
    var delta := Sub(start, previous);
    delta > 0 && delta % meta.interval == 0 && (meta.policy == FailOnGap ==> delta == meta.interval)
  }

  /** Exactly the sensible rows that follow what was read are accepted, each as the next candle. */
  lemma RowIsAccepted(meta: Meta, before: Reading, row: Row)
    requires meta.Valid()
    ensures ReadRow(meta, before, row).Ok? <==>
              && Sensible(meta, row)
              && (before.reader.previous.Some? ==> Follows(meta, before.reader.previous.value, row.start))
    ensures ReadRow(meta, before, row).Ok? ==>
              var after := ReadRow(meta, before, row).value;
              && |after.candles| == |before.candles| + 1 && after.candles[..|before.candles|] == before.candles
              && Shows(meta, after.candles[|before.candles|], row)
  {
    hide Aligned;
  }

  /** The candles of an accepted dataset are its rows, one for one. */
  lemma {:induction false} CandlesAreRows(meta: Meta, rows: seq<Row>)
    requires meta.Valid() && ReadAll(meta, rows).Ok?
    ensures var candles := ReadAll(meta, rows).value.candles;
            && |candles| == |rows|
            && forall i :: 0 <= i < |rows| ==> Sensible(meta, rows[i]) && Shows(meta, candles[i], rows[i])
  {
    hide ReadRow, Sensible, Shows;
    if rows != [] {
      var init := rows[..|rows| - 1];
      CandlesAreRows(meta, init);
      RowIsAccepted(meta, ReadAll(meta, init).value, rows[|rows| - 1]);
      var candles := ReadAll(meta, rows).value.candles;
      assert forall i :: 0 <= i < |init| ==> candles[i] == candles[..|init|][i] && rows[i] == init[i];
    }
  }

  function TotalMissing(gaps: seq<Gap>): int {
    if gaps == [] then 0 else TotalMissing(gaps[..|gaps| - 1]) + gaps[|gaps| - 1].missing
  }

  /** Every row is a candle; candles follow one another without overlap. */
  predicate Ordered(meta: Meta, candles: seq<Candle>)
    requires meta.Valid()
  {
    && (forall i :: 0 <= i < |candles| ==>
          candles[i].Valid() && candles[i].end == candles[i].start + meta.interval &&
          candles[i].start != 0 && Aligned(candles[i].open, meta.tick))
    && (forall i :: 0 < i < |candles| ==> candles[i - 1].end <= candles[i].start)
  }

  predicate DividesLongest(interval: int)
    requires interval > 0
  {
    MAX_DURATION % interval == 0
  }

  /** A span of `n` intervals. */
  function Span(interval: int, n: int): int {
    interval * n
  }

  lemma ExactMultiple(delta: int, interval: int)
    requires interval > 0 && delta > 0 && delta % interval == 0
    ensures delta == Span(interval, delta / interval) && delta >= interval
  {
    assert delta / interval >= 1;
  }

  lemma AddSpans(interval: int, n: int, m: int)
    ensures Span(interval, n) + Span(interval, m) == Span(interval, n + m)
    ensures Span(interval, 1) == interval && Span(interval, 0) == 0
  {
  }

  /** Starts increase, the reader's first and previous starts are those of the first and last
      candle, and it has counted the rows. */
  predicate Rising(r: Reading) {
    && |r.candles| == r.reader.row
    && (r.candles == [] ==> r == START)
    && (r.candles != [] ==>
          && r.reader.first == Some(r.candles[0].start)
          && r.reader.previous == Some(r.candles[|r.candles| - 1].start))
    && (forall i, j :: 0 <= i < j < |r.candles| ==> r.candles[i].start < r.candles[j].start)
  }

  predicate Touching(candles: seq<Candle>) {
    forall i :: 0 < i < |candles| ==> candles[i].start == candles[i - 1].end
  }

  lemma RowKeepsRising(meta: Meta, before: Reading, row: Row)
    requires meta.Valid() && Rising(before) && ReadRow(meta, before, row).Ok?
    ensures Rising(ReadRow(meta, before, row).value)
  {
    hide Aligned, Spacing, CheckRow;
    if before.reader.previous.Some? {
      SpacingIsWhole(meta, before.reader.previous.value, row.start);
    }
  }

  lemma RowKeepsOrder(meta: Meta, before: Reading, row: Row)
    requires meta.Valid() && Rising(before) && Ordered(meta, before.candles) && ReadRow(meta, before, row).Ok?
    ensures var r := ReadRow(meta, before, row).value;
            && Ordered(meta, r.candles)
            && (meta.policy == FailOnGap && meta.interval < MAX_DURATION && Touching(before.candles) ==>
                  Touching(r.candles))
            && (meta.policy != MarkGaps ==> r.reader.gaps == before.reader.gaps)
  {
    hide Aligned, Spacing;
    if before.reader.previous.Some? {
      SpacingIsWhole(meta, before.reader.previous.value, row.start);
    }
  }

  /** Whatever the gap policy, emitted candles never overlap and their starts strictly
      increase. Only the mark policy records gaps, and under the fail policy, unless the
      interval is the longest duration there is, consecutive candles touch. */
  lemma {:induction false} CandlesAreOrdered(meta: Meta, rows: seq<Row>)
    requires meta.Valid() && ReadAll(meta, rows).Ok?
    ensures var r := ReadAll(meta, rows).value;
            && Ordered(meta, r.candles) && |r.candles| == |rows| && Rising(r)
            && (meta.policy != MarkGaps ==> r.reader.gaps == [])
            && (meta.policy == FailOnGap && meta.interval < MAX_DURATION ==> Touching(r.candles))
  {
    if rows != [] {
      hide Ordered, Rising, Touching, CheckRow, Spacing;
      CandlesAreOrdered(meta, rows[..|rows| - 1]);
      var before := ReadAll(meta, rows[..|rows| - 1]).value;
      RowKeepsRising(meta, before, rows[|rows| - 1]);
      RowKeepsOrder(meta, before, rows[|rows| - 1]);
    }
  }

  lemma SpacingIsWhole(meta: Meta, previous: int, start: int)
    requires meta.Valid() && Spacing(meta, previous, start).Ok?
    ensures start >= previous + meta.interval
    ensures meta.policy == FailOnGap && meta.interval < MAX_DURATION ==> start == previous + meta.interval
    ensures !DividesLongest(meta.interval) ==>
              var gap := Spacing(meta, previous, start).value;
              start - previous == Span(meta.interval, if gap.Some? then gap.value.missing + 1 else 1)
  {
    hide Span;
    var delta := Sub(start, previous);
    if delta != meta.interval {
      ExactMultiple(delta, meta.interval);
    }
    AddSpans(meta.interval, 1, 0);
  }

  lemma WholeSpan(span: int, interval: int, n: int)
    requires interval > 0 && span == Span(interval, n)
    ensures span / interval == n
  {
    var rest := n - span / interval;
    assert interval * rest == span % interval;
    assert interval * rest >= interval <== rest >= 1;
    assert interval * rest <= -interval <== rest <= -1;
  }

  /** Rows plus missing candles, against the number of intervals between first and last. */
  predicate Accounted(meta: Meta, reader: Reader)
    requires meta.Valid()
  {
    reader.first.Some? && reader.previous.Some? ==>
      reader.row + TotalMissing(reader.gaps) == (reader.previous.value - reader.first.value) / meta.interval + 1
  }

  /** The reader's span is a whole number of intervals, one less than rows and gaps make. */
  predicate WholeReader(meta: Meta, r: Reader) {
    && r.first.Some? && r.previous.Some?
    && r.previous.value - r.first.value == Span(meta.interval, r.row + TotalMissing(r.gaps) - 1)
  }

  lemma {:induction false} RowKeepsSpan(meta: Meta, before: Reading, row: Row)
    requires meta.Valid() && meta.policy == MarkGaps && !DividesLongest(meta.interval)
    requires before == START || WholeReader(meta, before.reader)
    requires ReadRow(meta, before, row).Ok?
    ensures WholeReader(meta, ReadRow(meta, before, row).value.reader)
  {
    hide CheckRow, Spacing, Span, DividesLongest;
    var r := before.reader;
    if before == START {
      AddSpans(meta.interval, 0, 0);
    } else {
      SpacingIsWhole(meta, r.previous.value, row.start);
      var gap := Spacing(meta, r.previous.value, row.start).value;
      if gap.Some? {
        assert (r.gaps + [gap.value])[..|r.gaps|] == r.gaps;
      }
      AddSpans(meta.interval, r.row + TotalMissing(r.gaps) - 1, if gap.Some? then gap.value.missing + 1 else 1);
    }
  }

  lemma {:induction false} SpanIsWhole(meta: Meta, rows: seq<Row>)
    requires meta.Valid() && meta.policy == MarkGaps && !DividesLongest(meta.interval)
    requires rows != [] && ReadAll(meta, rows).Ok?
    ensures WholeReader(meta, ReadAll(meta, rows).value.reader)
  {
    hide ReadRow, WholeReader, DividesLongest;
    var init := rows[..|rows| - 1];
    if init != [] {
      SpanIsWhole(meta, init);
    }
    RowKeepsSpan(meta, ReadAll(meta, init).value, rows[|rows| - 1]);
  }

  /** The breaks between consecutive candles, with how many intervals each leaves out. */
  function Breaks(meta: Meta, candles: seq<Candle>): seq<Gap>
    requires meta.Valid()
  {
    if |candles| <= 1 then []
    else
      var previous, current := candles[|candles| - 2].start, candles[|candles| - 1].start;
      Breaks(meta, candles[..|candles| - 1]) + Break(meta, previous, current)
  }

  function Break(meta: Meta, previous: int, current: int): seq<Gap>
    requires meta.Valid()
  {
    if current - previous == meta.interval then []
    else [Gap(previous, current, (current - previous) / meta.interval - 1)]
  }

  lemma SpacingIsBreak(meta: Meta, previous: int, start: int)
    requires meta.Valid() && !DividesLongest(meta.interval) && Spacing(meta, previous, start).Ok?
    ensures var gap := Spacing(meta, previous, start).value;
            Break(meta, previous, start) == if gap.Some? then [gap.value] else []
  {
  }

  /** The previous start is that of the last candle emitted. */
  predicate Tracks(r: Reading) {
    r.reader.previous == if r.candles == [] then None else Some(r.candles[|r.candles| - 1].start)
  }

  lemma {:induction false} RowAddsBreak(meta: Meta, before: Reading, row: Row)
    requires meta.Valid() && meta.policy == MarkGaps && !DividesLongest(meta.interval) && Tracks(before)
    requires before.reader.gaps == Breaks(meta, before.candles) && ReadRow(meta, before, row).Ok?
    ensures var r := ReadRow(meta, before, row).value;
            Tracks(r) && r.reader.gaps == Breaks(meta, r.candles)
  {
    hide CheckRow, Spacing, DividesLongest, Break, Breaks;
    BreaksAppended(meta, before.candles, CandleOf(meta, row));
    if before.candles != [] {
      SpacingIsBreak(meta, before.reader.previous.value, row.start);
    }
  }

  lemma {:induction false} BreaksAppended(meta: Meta, candles: seq<Candle>, c: Candle)
    requires meta.Valid()
    ensures Breaks(meta, candles + [c]) ==
            if candles == [] then [] else Breaks(meta, candles) + Break(meta, candles[|candles| - 1].start, c.start)
    ensures candles == [] ==> Breaks(meta, candles) == []
  {
    hide Break;
    assert (candles + [c])[..|candles|] == candles;
  }

  /** Under the mark policy the recorded gaps are exactly the breaks between the candles. */
  lemma {:induction false} GapsAreBreaks(meta: Meta, rows: seq<Row>)
    requires meta.Valid() && meta.policy == MarkGaps && !DividesLongest(meta.interval)
    requires ReadAll(meta, rows).Ok?
    ensures var r := ReadAll(meta, rows).value; Tracks(r) && r.reader.gaps == Breaks(meta, r.candles)
  {
    hide DividesLongest;
    if rows != [] {
      hide ReadRow, Tracks, Breaks;
      GapsAreBreaks(meta, rows[..|rows| - 1]);
      RowAddsBreak(meta, ReadAll(meta, rows[..|rows| - 1]).value, rows[|rows| - 1]);
    }
  }

  /** Two rows further apart than a duration can express, for an interval that divides the
      longest duration. */
  function FarApart(meta: Meta): seq<Row> {
    [Row(1, meta.tick, meta.tick, meta.tick, meta.tick, 0.0),
     Row(1 + MAX_DURATION + meta.interval, meta.tick, meta.tick, meta.tick, meta.tick, 0.0)]
  }

  lemma FarApartIsMiscounted(meta: Meta)
    requires meta.Valid() && meta.policy == MarkGaps && DividesLongest(meta.interval)
    ensures ReadAll(meta, FarApart(meta)).Ok? && !Accounted(meta, ReadAll(meta, FarApart(meta)).value.reader)
  {
    var rows := FarApart(meta);
    FlatRowIsAccepted(meta, rows[0]);
    FlatRowIsAccepted(meta, rows[1]);
    hide Aligned, CheckRow;
    var n := MAX_DURATION / meta.interval;
    WholeSpan(MAX_DURATION + meta.interval, meta.interval, n + 1);
    assert rows[..1] == [rows[0]] && rows[..1][..0] == [];
    var gaps := if meta.interval == MAX_DURATION then [] else [Gap(rows[0].start, rows[1].start, n - 1)];
    assert ReadAll(meta, rows[..1][..0]) == Ok(START);
    assert ReadAll(meta, rows[..1]) == ReadRow(meta, START, rows[0]);
    assert Spacing(meta, rows[0].start, rows[1].start) == Ok(if gaps == [] then None else Some(gaps[0]));
    assert ReadAll(meta, rows).value.reader == Reader(2, Some(rows[0].start), Some(rows[1].start), gaps);
    assert gaps != [] ==> gaps[..0] == [];
    assert TotalMissing([]) == 0;
    assert TotalMissing(gaps) == if gaps == [] then 0 else n - 1;
    assert gaps == [] ==> n == 1;
  }

  lemma FlatRowIsAccepted(meta: Meta, row: Row)
    requires meta.Valid() && row.Row? && row.start > 0
    requires row.open == row.high == row.low == row.close == meta.tick && row.volume == 0.0
    ensures CheckRow(meta, row) == None
  {
    SelfQuotient(meta.tick);
    StepsAreAligned(0, meta.lot);
    assert Steps(0, meta.lot) == 0.0;
  }

  /** Under the mark policy the recorded gaps account for every interval between the first
      and the last candle of every accepted dataset, exactly when the interval does not
      divide the longest duration. */
  lemma {:induction false} GapsAccountForEveryInterval(meta: Meta)
    requires meta.Valid() && meta.policy == MarkGaps
    ensures (forall rows :: ReadAll(meta, rows).Ok? ==> Accounted(meta, ReadAll(meta, rows).value.reader))
            <==> !DividesLongest(meta.interval)
  {
    if DividesLongest(meta.interval) {
      FarApartIsMiscounted(meta);
    } else {
      forall rows | ReadAll(meta, rows).Ok? ensures Accounted(meta, ReadAll(meta, rows).value.reader) {
        hide Span;
        if rows != [] {
          SpanIsWhole(meta, rows);
          var r := ReadAll(meta, rows).value.reader;
          WholeSpan(r.previous.value - r.first.value, meta.interval, r.row + TotalMissing(r.gaps) - 1);
        }
      }
    }
  }

  // ---------------------------------------------------------------------------
  // The iterator
  // ---------------------------------------------------------------------------

  datatype NextEvent = Event(candle: Candle, sequence: nat) | EndOfFile | Failed(error: RowError)

  class CSVIterator {
    const meta: Meta
    const input: seq<Row>
    var read: nat
    var row: nat
    var first: Option<int>
    var previous: Option<int>
    var gaps: seq<Gap>
    var done: bool
    ghost var emitted: seq<Candle>

    /** The fields are what reading the consumed rows one after another produces. */
    ghost predicate Valid()
      reads this
    {
      && meta.Valid() && read <= |input|
      && ReadAll(meta, input[..read]) == Ok(Reading(Reader(row, first, previous, gaps), emitted))
      && (done ==> read == |input|)
    }

    constructor (meta: Meta, input: seq<Row>)
      requires meta.Valid()
      ensures Valid() && emitted == [] && read == 0 && !done && this.meta == meta && this.input == input
    {
      this.meta, this.input := meta, input;
      read, row, first, previous, gaps, done := 0, 0, None, None, [], false;
      emitted := [];
    }

    /** Emits the next candle, in order; an error leaves the iterator unusable. */
    method Next() returns (r: NextEvent)
      requires Valid()
      modifies this
      ensures !r.Failed? ==> Valid()
      ensures r.EndOfFile? <==> old(read) == |input|
      ensures r.EndOfFile? ==> done && read == old(read) && emitted == old(emitted)
      ensures r.Event? ==>
          read == old(read) + 1 && emitted == old(emitted) + [r.candle] && r.sequence == row == old(row) + 1
      ensures r.Failed? ==> ReadAll(meta, input[..old(read) + 1]) == Err(r.error)
    {
      hide CheckRow, Spacing;
      if done {
        return EndOfFile;
      }
      if read == |input| {
        done := true;
        return EndOfFile;
      }
      assert input[..read + 1][..read] == input[..read];
      var record := input[read];
      read := read + 1;
      row := row + 1;
      if record.Malformed? {
        return Failed(BadRow);
      }
      var start := record.start;
      if first.None? {
        first := Some(start);
      }
      if previous.Some? {
        var spacing := Spacing(meta, previous.value, start);
        if spacing.Err? {
          return Failed(spacing.error);
        }
        if spacing.value.Some? && meta.policy == MarkGaps {
          gaps := gaps + [spacing.value.value];
        }
      }
      var bad := CheckRow(meta, record);
      if bad.Some? {
        return Failed(bad.value);
      }
      var candle := CandleOf(meta, record);
      previous := Some(start);
      emitted := emitted + [candle];
      r := Event(candle, row);
    }
  }
}
