/** Positions against the reported duration, for the tracks whose number of samples leaves 64 bits. */
module Durations {
  import opened Machine
  import opened Progress

  // --- prgr -------------------------------------------------------------------------------

  /** The first number of samples whose product with 1000 leaves 64 bits. */
  const FIRST_WRAPPED := 9_223_372_036_854_776

  /** The milliseconds of `n` samples whose product has wrapped once and is negative. */
  function WrappedMs(n: int, rate: int): int
    requires rate > 0
  {
    Quotient(n * 1000 - 2 * INT64_LIMIT, rate)
  }

  predicate WrapsOnce(n: int) { INT64_LIMIT <= n * 1000 < 2 * INT64_LIMIT }

  lemma SpanWrapped(start: int, c: int, rate: int)
    requires 0 < rate && WrapsOnce(c - start)
    ensures RtpSpanToMs(start, c, rate) == Wrap32(WrappedMs(c - start, rate)) && WrappedMs(c - start, rate) <= 0
  {
    var n := c - start;
    assert Wrap64(n) == n && Wrap64(n * 1000) == n * 1000 - 2 * INT64_LIMIT;
    DivMono(0, 2 * INT64_LIMIT - n * 1000, rate);
    DivIs(0, rate, 0, 0);
  }

  lemma QuotientMono(x: int, y: int, r: int)
    requires r > 0 && x <= y
    ensures Quotient(x, r) <= Quotient(y, r)
  {
    DivIs(0, r, 0, 0);
    if x >= 0 {
      DivMono(x, y, r);
    } else if y < 0 {
      DivMono(-y, -x, r);
    } else {
      DivMono(0, -x, r);
      DivMono(0, y, r);
    }
  }

  /** Integers less than 31 bits away from one that wraps to `d`, on the side of zero or beyond it. */
  lemma WrapNear(e: int, d: nat, m: int)
    requires Wrap32(e) == d && e - d - 0x8000_0000 <= m <= e
    ensures Wrap32(m) == m - (e - d)
  {
    var k := (e + 0x8000_0000) / 0x1_0000_0000;
    assert e - d == k * 0x1_0000_0000;
    WrapPeriod(m - (e - d), k);
  }

  /** Some number of samples gives these negative milliseconds, or up to a second less. */
  lemma SamplesFor(ms: int, rate: int) returns (n: int)
    requires 0 < rate <= INT_MAX && ms <= -1 && 0 <= 2 * INT64_LIMIT + ms * rate
    ensures n == (2 * INT64_LIMIT + ms * rate) / 1000 && n * 1000 < 2 * INT64_LIMIT
    ensures ms - 1000 <= WrappedMs(n, rate) <= ms
  {
    n := (2 * INT64_LIMIT + ms * rate) / 1000;
    var w := 2 * INT64_LIMIT - n * 1000;
    Multiple(ms, rate);
    assert -ms * rate <= w < -ms * rate + 1000;
    DivIs(-ms * rate, rate, -ms, 0);
    DivMono(-ms * rate, w, rate);
    Multiple(1000, rate);
    assert (-ms + 1000) * rate == -ms * rate + 1000 * rate;
    ProductBelow(1, rate, 1000);
    DivIs((-ms + 1000) * rate, rate, -ms + 1000, 0);
    DivMono(w, (-ms + 1000) * rate, rate);
  }

  /** What a printed frame in order reports. */
  lemma PrgrReports(start: int, current: int, end: int, rate: int)
    requires Int64(start) && Int64(end) && start <= current <= end && start < end
    ensures var u := PrgrUpdate(PrgrText(start, current, end), rate);
            && u.hasPosition && u.positionMs == RtpSpanToMs(start, current, rate)
            && u.durationMs == RtpSpanToMs(start, end, rate)
            && (u.hasDuration <==> u.durationMs > 0)
  {
    PrgrRoundTrip(start, current, end);
  }

  ghost predicate PrgrInDuration(start: int, end: int, rate: int) {
    forall current | start <= current <= end :: InDuration(PrgrUpdate(PrgrText(start, current, end), rate))
  }

  lemma PrgrNegative(start: int, n: int, end: int, rate: int)
    requires Int64(start) && Int64(end) && 0 <= n <= end - start && 0 < rate
    requires 0 < RtpSpanToMs(start, end, rate) && RtpSpanToMs(start, start + n, rate) < 0
    ensures !PrgrInDuration(start, end, rate)
  {
    PrgrReports(start, start + n, end, rate);
  }

  /** The milliseconds have wrapped to 32 bits since the product first left 64. */
  predicate WrapsAgain(start: int, end: int, rate: int)
    requires rate > 0
  {
    WrappedMs(FIRST_WRAPPED, rate) < WrappedMs(end - start, rate) - RtpSpanToMs(start, end, rate)
  }

  lemma WrappedGrows(a: int, b: int, rate: int)
    requires rate > 0 && a <= b
    ensures WrappedMs(a, rate) <= WrappedMs(b, rate)
  {
    QuotientMono(a * 1000 - 2 * INT64_LIMIT, b * 1000 - 2 * INT64_LIMIT, rate);
  }

  lemma StaysWithin(start: int, current: int, end: int, rate: int)
    requires Int64(start) && Int64(end) && start <= current <= end && 0 < rate <= INT_MAX && WrapsOnce(end - start)
    requires RtpSpanToMs(start, end, rate) >= MAX_SPAN_MS && !WrapsAgain(start, end, rate)
    ensures 0 <= RtpSpanToMs(start, current, rate) <= RtpSpanToMs(start, end, rate)
  {
    if Fits(start, current) {
      FittingSpan(start, current, rate);
    } else {
      var e, d, m := WrappedMs(end - start, rate), RtpSpanToMs(start, end, rate), WrappedMs(current - start, rate);
      SpanWrapped(start, end, rate);
      SpanWrapped(start, current, rate);
      WrappedGrows(current - start, end - start, rate);
      WrappedGrows(FIRST_WRAPPED, current - start, rate);
      WrapNear(e, d, m);
    }
  }

  /** Past the second wrap of the product, positions just before it were negative. */
  lemma PassesZero(start: int, end: int, rate: int)
    requires Int64(start) && Int64(end) && 0 < rate <= INT_MAX && 2 * INT64_LIMIT <= (end - start) * 1000
    requires 0 < RtpSpanToMs(start, end, rate)
    ensures !PrgrInDuration(start, end, rate)
  {
    var n := SamplesFor(-1, rate);
    SpanWrapped(start, start + n, rate);
    PrgrNegative(start, n, end, rate);
  }

  /** Before a duration that wrapped to 32 bits, positions were negative. */
  lemma PassesBlock(start: int, end: int, rate: int)
    requires Int64(start) && Int64(end) && 0 < rate <= INT_MAX && WrapsOnce(end - start)
    requires 0 < RtpSpanToMs(start, end, rate) && WrapsAgain(start, end, rate)
    ensures !PrgrInDuration(start, end, rate)
  {
    var e, d := WrappedMs(end - start, rate), RtpSpanToMs(start, end, rate);
    SpanWrapped(start, end, rate);
    var n := BlockEnd(e - d, rate);
    if n > end - start {
      WrappedGrows(end - start, n, rate);
    }
    SpanWrapped(start, start + n, rate);
    WrapNear(e, d, WrappedMs(n, rate));
    PrgrNegative(start, n, end, rate);
  }

  /** A number of samples just short of `ms`, when the first that wraps falls short of it. */
  lemma BlockEnd(ms: int, rate: int) returns (n: int)
    requires 0 < rate <= INT_MAX && ms <= -1 && WrappedMs(FIRST_WRAPPED, rate) < ms
    ensures WrapsOnce(n) && ms - 1001 <= WrappedMs(n, rate) <= ms - 1
  {
    var first := 2 * INT64_LIMIT - FIRST_WRAPPED * 1000;
    assert first / rate >= 1 - ms;
    ProductBelow(1 - ms, first / rate, rate);
    assert (first / rate) * rate <= first;
    assert (ms - 1) * rate == -((1 - ms) * rate);
    n := SamplesFor(ms - 1, rate);
    assert FIRST_WRAPPED * 1000 <= 2 * INT64_LIMIT + (ms - 1) * rate;
    DivMono(FIRST_WRAPPED * 1000, 2 * INT64_LIMIT + (ms - 1) * rate, 1000);
  }

  /**
   Where a duration of eight hours or more is reported, every frame in order stays within it if and only
   if the product fits 64 bits, or it has wrapped once, is still negative, and its milliseconds have not
   wrapped to 32 bits on the way.
   */
  lemma PrgrLongDurationIff(start: int, end: int, rate: int)
    requires Int64(start) && Int64(end) && start <= end && 0 < rate <= INT_MAX
    requires RtpSpanToMs(start, end, rate) >= MAX_SPAN_MS
    ensures (forall current | start <= current <= end :: InDuration(PrgrUpdate(PrgrText(start, current, end), rate)))
            <==> Fits(start, end) || (WrapsOnce(end - start) && !WrapsAgain(start, end, rate))
  {
    if Fits(start, end) {
      forall current | start <= current <= end ensures InDuration(PrgrUpdate(PrgrText(start, current, end), rate)) {
        PrgrWithinDuration(start, current, end, rate);
      }
    } else if 2 * INT64_LIMIT <= (end - start) * 1000 {
      PassesZero(start, end, rate);
    } else if WrapsAgain(start, end, rate) {
      PassesBlock(start, end, rate);
    } else {
      forall current | start <= current <= end ensures InDuration(PrgrUpdate(PrgrText(start, current, end), rate)) {
        StaysWithin(start, current, end, rate);
        PrgrReports(start, current, end, rate);
      }
    }
  }

  /** A span whose product wraps `turns` times, and comes to `ms`. */
  lemma SpanIs(start: int, end: int, turns: int, ms: int)
    requires start <= end && 0 <= ms <= MAX_SPAN_MS && end - start < INT64_LIMIT
    requires ms * 44100 <= (end - start) * 1000 - turns * 2 * INT64_LIMIT < (ms + 1) * 44100
    ensures RtpSpanToMs(start, end, 44100) == ms
  {
    var w := (end - start) * 1000 - turns * 2 * INT64_LIMIT;
    DivIs((end - start) * 1000 + INT64_LIMIT, 2 * INT64_LIMIT, turns, w + INT64_LIMIT);
    DivIs(w, 44100, ms, w - ms * 44100);
  }

  /** A frame of a track that wraps twice: 100 s into it, of a reported duration of 10 s. */
  lemma PrgrOverruns()
    ensures var start, current, end := 1, 18_446_744_078_119_553, 36_893_488_147_860_105;
            var u := PrgrUpdate(PrgrText(start, current, end), 44100);
            && !Fits(start, end) && 0 < RtpSpanToMs(start, end, 44100) < MAX_SPAN_MS
            && u.hasDuration && u.durationMs == 10_000 && u.positionMs == 100_000
  {
    SpanIs(1, 18_446_744_078_119_553, 1, 100_000);
    SpanIs(1, 36_893_488_147_860_105, 2, 10_000);
    PrgrReports(1, 18_446_744_078_119_553, 36_893_488_147_860_105, 44100);
  }

  // --- phbt -------------------------------------------------------------------------------

  /** The milliseconds from the start to the last sample that is no wall clock. */
  function Longest(start: int, end: int, rate: int): int
    requires rate > 0
  {
    Exact(start, if end <= NANOSECONDS_FROM then end else NANOSECONDS_FROM, rate)
  }

  /** Samples up to `c` in steps of eight hours, as far as they go. */
  function FullSteps(from: int, c: int, rate: int): (samples: seq<int>)
    requires rate > 0
    ensures samples != []
    decreases c - from
  {
    if c <= EightHours(from, rate) then [c]
    else [EightHours(from, rate)] + FullSteps(EightHours(from, rate), c, rate)
  }

  lemma FullStep(start: int, from: int, rate: int)
    requires 0 < rate <= INT_MAX && (from - start) * 1000 % rate == 0
    ensures var next := EightHours(from, rate);
            && from < next && (next - start) * 1000 % rate == 0
            && Exact(from, next, rate) == MAX_SPAN_MS
            && Exact(start, next, rate) == Exact(start, from, rate) + MAX_SPAN_MS
  {
    var n, q := (from - start) * 1000, (from - start) * 1000 / rate;
    assert n == q * rate;
    assert (EightHours(from, rate) - start) * 1000 == (q + MAX_SPAN_MS) * rate;
    DivIs((q + MAX_SPAN_MS) * rate, rate, q + MAX_SPAN_MS, 0);
    EightHoursLong(from, rate);
  }

  /** Such steps lose nothing. */
  lemma {:induction false} FullStepsCount(start: int, from: int, c: int, rate: int)
    requires 0 < rate <= INT_MAX && start <= from < c <= NANOSECONDS_FROM && (from - start) * 1000 % rate == 0
    ensures var samples := FullSteps(from, c, rate);
            && Climbs(from, samples, rate) && Last(from, samples) == c
            && Counted(start, from, Exact(start, from, rate), samples, rate) == Exact(start, c, rate)
    decreases c - from
  {
    var next, position := EightHours(from, rate), Exact(start, from, rate);
    ExactNotNegative(start, from, rate);
    ExactNotNegative(from, c, rate);
    FullStep(start, from, rate);
    if c <= next {
      ExactAdds(start, from, c, rate);
      ExactGrows(from, c, next, rate);
      assert [c][1..] == [] && Climbs(c, [], rate);
      assert Stepped(start, from, position, c, rate) == Exact(start, c, rate);
    } else {
      var rest := FullSteps(next, c, rate);
      FullStepsCount(start, next, c, rate);
      assert ([next] + rest)[1..] == rest;
      assert Stepped(start, from, position, next, rate) == Exact(start, next, rate);
      assert Last(from, [next] + rest) == Last(next, rest);
    }
  }

  lemma {:induction false} ClimbsBelow(from: int, samples: seq<int>, rate: int)
    requires rate > 0 && Climbs(from, samples, rate) && samples != []
    ensures Last(from, samples) <= NANOSECONDS_FROM
    decreases |samples|
  {
    if |samples| > 1 {
      ClimbsBelow(samples[0], samples[1..], rate);
    }
  }

  lemma ShortEnough(start: int, end: int, samples: seq<int>, rate: int)
    requires 0 < rate <= INT_MAX && 0 < start < end && samples != [] && Climbs(start, samples, rate)
    requires Last(start, samples) <= end && Longest(start, end, rate) <= RtpSpanToMs(start, end, rate)
    ensures var us := PhbtUpdates(Run(Track(start, end, 0, 0), samples, rate), rate);
            |us| == 1 && InDuration(us[0])
  {
    var last := Last(start, samples);
    PositionBounds(start, end, samples, rate);
    ClimbsUp(start, samples, rate);
    ClimbsBelow(start, samples, rate);
    FirstPosition(start, samples[0], rate);
    CountedWithin(start, samples[0], Exact(start, samples[0], rate), samples[1..], 0, rate);
    assert Last(samples[0], samples[1..]) == last;
    ExactGrows(start, last, if end <= NANOSECONDS_FROM then end else NANOSECONDS_FROM, rate);
  }

  /** The first sample that lies more than `d` milliseconds behind the start. */
  lemma FirstBeyond(start: int, d: nat, rate: int) returns (c: int)
    requires 0 < rate <= INT_MAX
    ensures start < c && d < Exact(start, c, rate) <= d + 1001
    ensures forall e | d < Exact(start, e, rate) :: c <= e
  {
    var product := (d + 1) * rate;
    ProductBelow(1, d + 1, rate);
    c := start + (product + 999) / 1000;
    assert product <= (c - start) * 1000 < product + 1000;
    DivIs(product, rate, d + 1, 0);
    DivMono(product, (c - start) * 1000, rate);
    assert (d + 1001) * rate == product + 1000 * rate;
    ProductBelow(1, rate, 1000);
    DivIs((d + 1001) * rate, rate, d + 1001, 0);
    DivMono((c - start) * 1000, (d + 1001) * rate, rate);
    forall e | d < Exact(start, e, rate) ensures c <= e {
      ProductBelow(d + 1, Exact(start, e, rate), rate);
    }
  }

  lemma TooLong(start: int, end: int, rate: int)
    requires 0 < rate <= INT_MAX && 0 < start < end
    requires 0 < RtpSpanToMs(start, end, rate) < Longest(start, end, rate)
    ensures !PhbtInDuration(start, end, rate)
  {
    var c := FirstBeyond(start, RtpSpanToMs(start, end, rate), rate);
    var samples := FullSteps(start, c, rate);
    DivIs(0, rate, 0, 0);
    FullStepsCount(start, start, c, rate);
    PositionBounds(start, end, samples, rate);
    assert Counted(start, start, 0, samples, rate) == Exact(start, c, rate);
  }

  /**
   Wherever a duration is reported, positions stay within it if and only if it is not shorter than the
   time from the start to the last sample that is no wall clock.
   */
  lemma PhbtLongestIff(start: int, end: int, rate: int)
    requires 0 < rate <= INT_MAX && 0 < start < end && 0 < RtpSpanToMs(start, end, rate)
    ensures PhbtInDuration(start, end, rate) <==> Longest(start, end, rate) <= RtpSpanToMs(start, end, rate)
  {
    if Longest(start, end, rate) <= RtpSpanToMs(start, end, rate) {
      forall samples | samples != [] && Climbs(start, samples, rate) && Last(start, samples) <= end
        ensures var us := PhbtUpdates(Run(Track(start, end, 0, 0), samples, rate), rate);
                |us| == 1 && InDuration(us[0])
      {
        ShortEnough(start, end, samples, rate);
      }
    } else {
      TooLong(start, end, rate);
    }
  }

  /** A sample of a track that wraps: 5 s into it, of a reported duration of 1 s. */
  lemma PhbtOverruns()
    ensures var start, end := 1_000, 18_446_744_073_754_652;
            var t := Run(Track(start, end, 0, 0), [221_500], 44100);
            && !Fits(start, end) && EightHours(start, 44100) <= NANOSECONDS_FROM
            && PhbtUpdates(t, 44100) == [Update(5_000, 1_000, true, true, true)]
  {
    SpanIs(1_000, 18_446_744_073_754_652, 1, 1_000);
    SpanIs(1_000, 221_500, 0, 5_000);
    OneSample(Track(1_000, 18_446_744_073_754_652, 0, 0), 221_500, 44100);
  }
}
