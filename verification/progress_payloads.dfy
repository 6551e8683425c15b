/** Progress as it comes down the pipe: printed `prgr`, `phb0` and `phbt` payloads, and what is reported of them. */
module ProgressPayloads {
  import opened Machine
  import opened Text
  import opened Progress

  /** What a `phbt` item carries: an RTP sample, or a sample and the wall clock at which it plays. */
  datatype Beat = Sample(frame: int) | Clocked(frame: int, clock: int)

  function BeatText(b: Beat): string {
    match b
    case Sample(frame) => DecInt(frame)
    case Clocked(frame, clock) => Glued([DecInt(frame), DecInt(clock)], '/')
  }

  /** The number that is followed. */
  function BeatValue(b: Beat): int {
    match b
    case Sample(frame) => frame
    case Clocked(_, clock) => clock
  }

  predicate Printable(b: Beat) { Int64(b.frame) && (b.Clocked? ==> Int64(b.clock)) }

  predicate AllPrintable(bs: seq<Beat>) { forall i | 0 <= i < |bs| :: Printable(bs[i]) }

  function Values(bs: seq<Beat>): (vs: seq<int>)
    ensures |vs| == |bs|
  {
    seq(|bs|, i requires 0 <= i < |bs| => BeatValue(bs[i]))
  }

  /** The track after each printed payload in turn. */
  function Fed(t: Track, bs: seq<Beat>, rate: int): Track
    decreases |bs|
  {
    if bs == [] then t else Fed(AfterPhbt(t, BeatText(bs[0]), rate), bs[1..], rate)
  }

  lemma BeatReads(b: Beat)
    requires Printable(b)
    ensures CurrentOf(BeatText(b)) == BeatValue(b) && StartOf(BeatText(b)) == b.frame
  {
    match b
    case Sample(frame) => PhbtRoundTrip(frame);
    case Clocked(frame, clock) => PairReadsSecond(frame, clock);
  }

  /** Without a start, the first frame is taken for it. */
  function StartedBy(t: Track, bs: seq<Beat>): Track {
    if t.start <= 0 && bs != [] then t.(start := bs[0].frame) else t
  }

  /** Printed payloads come to the run over their numbers. */
  lemma {:induction false} FedIsRun(t: Track, bs: seq<Beat>, rate: int)
    requires AllPrintable(bs) && StartedBy(t, bs).start > 0
    ensures Fed(t, bs, rate) == Run(StartedBy(t, bs), Values(bs), rate)
    decreases |bs|
  {
    if bs != [] {
      var n := AfterPhbt(t, BeatText(bs[0]), rate);
      assert Printable(bs[0]);
      BeatReads(bs[0]);
      assert Values(bs)[1..] == Values(bs[1..]);
      FedIsRun(n, bs[1..], rate);
    }
  }

  /** The track that a printed `prgr` leaves, whatever its current sample. */
  lemma PrgrTrack(start: int, current: int, end: int)
    requires Int64(start) && Int64(current) && Int64(end)
    ensures AfterPrgr(PrgrText(start, current, end)) == Track(start, end, 0, 0)
  {
    PrgrRoundTrip(start, current, end);
  }

  /** A printed `phb0` starts again from its frame, towards the same end. */
  lemma Phb0Track(t: Track, b: Beat)
    requires Printable(b)
    ensures AfterPhb0(t, BeatText(b)) == Track(b.frame, t.end, 0, 0)
  {
    BeatReads(b);
  }

  function Samples(cs: seq<int>): (bs: seq<Beat>)
    ensures |bs| == |cs|
  {
    seq(|cs|, i requires 0 <= i < |cs| => Sample(cs[i]))
  }

  lemma {:induction false} SamplesPrintable(from: int, cs: seq<int>, rate: int)
    requires rate > 0 && 0 < from && Climbs(from, cs, rate)
    ensures AllPrintable(Samples(cs)) && Values(Samples(cs)) == cs
    decreases |cs|
  {
    if cs != [] {
      SamplesPrintable(cs[0], cs[1..], rate);
      forall i | 0 <= i < |cs| ensures Printable(Samples(cs)[i]) {
        if i > 0 { assert Samples(cs)[i] == Samples(cs[1..])[i - 1]; }
      }
    }
  }

  /**
   A printed `prgr` with a positive start, then printed samples that climb in steps under eight hours: the
   tracker holds, wrapped to 32 bits, a position between the exact one and a millisecond below it for every
   sample but the first, and reports it.
   */
  lemma PrintedPositionBounds(start: int, current: int, end: int, samples: seq<int>, rate: int)
    requires 0 < rate <= INT_MAX && start > 0 && samples != [] && Climbs(start, samples, rate)
    requires Int64(start) && Int64(current) && Int64(end)
    ensures var r := Fed(AfterPrgr(PrgrText(start, current, end)), Samples(samples), rate);
            var position := Counted(start, start, 0, samples, rate);
            var exact := Exact(start, Last(start, samples), rate);
            && exact - (|samples| - 1) <= position <= exact
            && r == Track(start, end, Last(start, samples), Wrap32(position))
            && (forall u | u in PhbtUpdates(r, rate) :: u.hasPosition && u.positionMs == Wrap32(position)
                                                        && (u.hasDuration || u.durationMs == -1))
            && |PhbtUpdates(r, rate)| == 1
  {
    PrgrTrack(start, current, end);
    SamplesPrintable(start, samples, rate);
    FedIsRun(Track(start, end, 0, 0), Samples(samples), rate);
    PositionBounds(start, end, samples, rate);
    ClimbsUp(start, samples, rate);
  }

  /** While the track fits and the samples stay in it, the report is of that position, within the duration. */
  lemma PrintedWithinDuration(start: int, current: int, end: int, samples: seq<int>, rate: int)
    requires 0 < rate <= INT_MAX && start > 0 && samples != [] && Climbs(start, samples, rate)
    requires Int64(start) && Int64(current) && Int64(end) && Last(start, samples) <= end && Fits(start, end)
    ensures var us := PhbtUpdates(Fed(AfterPrgr(PrgrText(start, current, end)), Samples(samples), rate), rate);
            && |us| == 1 && us[0].hasPosition && InDuration(us[0])
            && (us[0].hasDuration <==> 0 < Exact(start, end, rate) <= MAX_SPAN_MS)
            && (us[0].hasDuration ==> us[0].durationMs == Exact(start, end, rate)
                                      && us[0].positionMs == Counted(start, start, 0, samples, rate))
  {
    PrintedPositionBounds(start, current, end, samples, rate);
    PrgrTrack(start, current, end);
    SamplesPrintable(start, samples, rate);
    FedIsRun(Track(start, end, 0, 0), Samples(samples), rate);
    PhbtWithinDuration(start, end, samples, rate);
    ClimbsUp(start, samples, rate);
    FittingSpan(start, end, rate);
    ExactGrows(start, Last(start, samples), end, rate);
    PositionBounds(start, end, samples, rate);
    FirstPosition(start, samples[0], rate);
    CountedWithin(start, samples[0], Exact(start, samples[0], rate), samples[1..], 0, rate);
    assert Last(samples[0], samples[1..]) == Last(start, samples);
  }

  /** Pairs of a frame and a wall clock. */
  function Clocks(frames: seq<int>, clocks: seq<int>): (bs: seq<Beat>)
    requires |frames| == |clocks|
    ensures |bs| == |clocks|
  {
    seq(|clocks|, i requires 0 <= i < |clocks| => Clocked(frames[i], clocks[i]))
  }

  /**
   A printed `prgr` with a positive start, then pairs of any frames and climbing wall clocks: while the last
   product fits, the position is the time since the first clock, less a millisecond at most for each later one.
   */
  lemma PrintedClockFromFirst(start: int, current: int, end: int, frames: seq<int>, first: int, later: seq<int>,
                              rate: int)
    requires 0 < rate <= 1_000_000 && 0 < start < 0x1_0000_0000 && Int64(current) && Int64(end)
    requires NANOSECONDS_FROM < first && ClockClimbs(first, later) && Elapsed(first, later) <= INT_MAX
    requires Fits(start, Last(first, later)) && |frames| == |[first] + later|
    requires AllPrintable(Clocks(frames, [first] + later))
    ensures var r := Fed(AfterPrgr(PrgrText(start, current, end)), Clocks(frames, [first] + later), rate);
            var exact := (Last(first, later) - first) / NS_PER_MS;
            && exact - |later| <= r.accumulated <= exact && r.last == Last(first, later)
            && |PhbtUpdates(r, rate)| == 1 && PhbtUpdates(r, rate)[0].positionMs == r.accumulated
  {
    var bs := Clocks(frames, [first] + later);
    PrgrTrack(start, current, end);
    assert Values(bs) == [first] + later;
    FedIsRun(Track(start, end, 0, 0), bs, rate);
    WallClockFromFirst(start, end, first, later, rate);
    ElapsedBounds(first, later);
    FittingClock(start, first, rate);
    FittingClocks(start, first, later, rate);
    WallClockBounds(start, end, first, later, rate);
  }

  /**
   The report of a printed `prgr` whose spans fit: a position just when the current sample is not before the
   start, a duration just when the end is behind it by at least a millisecond and at most eight hours; of
   three zeros nothing.
   */
  lemma PrintedPrgrReports(start: int, current: int, end: int, rate: int)
    requires 0 < rate <= INT_MAX && Int64(start) && Int64(current) && Int64(end)
    requires Fits(start, current) && Fits(start, end)
    ensures var u, zeros := PrgrUpdate(PrgrText(start, current, end), rate), start == current == end == 0;
            && u.playing
            && (u.hasPosition <==> start <= current && !zeros)
            && (u.hasDuration <==> start < end && 0 < Exact(start, end, rate) <= MAX_SPAN_MS)
            && u.positionMs == (if !u.hasPosition then -1
                                else if Exact(start, current, rate) <= MAX_SPAN_MS then Exact(start, current, rate)
                                else 0)
            && (if u.hasDuration then u.durationMs == Exact(start, end, rate)
                else u.durationMs == if start < end then 0 else -1)
  {
    PrgrRoundTrip(start, current, end);
    if start <= current { FittingSpan(start, current, rate); }
    if start <= end { FittingSpan(start, end, rate); }
  }

  /** A payload with fewer or more than three tokens reports nothing, and leaves no end. */
  lemma OtherTokensReportNothing(ts: seq<string>, rate: int)
    requires ts != [] && Free(ts, '/') && |ts| != 3
    ensures PrgrUpdate(Glued(ts, '/'), rate) == NO_UPDATE && EndOf(Glued(ts, '/')) == 0
  {
    assert Glued(ts, '/')[0..] == Glued(ts, '/');
    SplitUndoesGlue(Glued(ts, '/'), '/', 0, ts);
  }
}
