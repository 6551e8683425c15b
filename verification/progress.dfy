/** RTP progress: the tokens of `prgr`, `phb0` and `phbt`, and the position accumulated from them. */
module Progress {
  import opened Machine
  import opened Text

  const MAX_SPAN_MS := 8 * 60 * 60 * 1000
  const NANOSECONDS_FROM := 1_000_000_000_000
  const NS_PER_MS := 1_000_000

  datatype Update = Update(positionMs: int, durationMs: int, playing: bool, hasPosition: bool, hasDuration: bool)

  const NO_UPDATE := Update(-1, -1, true, false, false)

  // --- Tokens -----------------------------------------------------------------------------

  function TokensFrom(s: string, d: char, start: nat): (ts: seq<string>)
    requires start <= |s|
    ensures |ts| > 0
    decreases |s| - start
  {
    match Find(s, [d], start)
    case None => [s[start..]]
    case Some(end) => [s[start..end]] + TokensFrom(s, d, end + 1)
  }

  method SplitTokens(payload: string, delimiter: char) returns (tokens: seq<string>)
    ensures tokens == TokensFrom(payload, delimiter, 0)
  {
    tokens := [];
    var start := 0;
    while start <= |payload|
      invariant start <= |payload|
      invariant tokens + TokensFrom(payload, delimiter, start) == TokensFrom(payload, delimiter, 0)
      decreases |payload| - start
    {
      var end := Find(payload, [delimiter], start);
      if end.None? {
        tokens := tokens + [payload[start..]];
        return;
      }
      Joins(tokens, [payload[start..end.value]], TokensFrom(payload, delimiter, end.value + 1));
      tokens := tokens + [payload[start..end.value]];
      start := end.value + 1;
    }
  }

  function Glued(ts: seq<string>, d: char): string
    requires ts != []
  {
    if |ts| == 1 then ts[0] else ts[0] + ([d] + Glued(ts[1..], d))
  }

  lemma AtChar(s: string, i: nat, d: char)
    ensures At(s, i, [d]) <==> i < |s| && s[i] == d
  {
  }

  predicate Free(ts: seq<string>, d: char) {
    ts == [] || (d !in ts[0] && Free(ts[1..], d))
  }

  lemma NoDelimiterIn(s: string, d: char, start: nat, token: string)
    requires start + |token| <= |s| && s[start..start + |token|] == token && d !in token
    ensures forall i | start <= i < start + |token| :: !At(s, i, [d])
  {
    forall i | start <= i < start + |token| ensures !At(s, i, [d]) {
      AtChar(s, i, d);
      assert s[i] == s[start..start + |token|][i - start];
    }
  }

  lemma LastToken(s: string, d: char, start: nat, token: string)
    requires start <= |s| && s[start..] == token && d !in token
    ensures TokensFrom(s, d, start) == [token]
  {
    NoDelimiterIn(s, d, start, token);
    FindIsNone(s, [d], start);
  }

  lemma NextToken(s: string, d: char, start: nat, token: string, rest: string)
    requires start <= |s| && s[start..] == token + ([d] + rest) && d !in token
    ensures start + |token| + 1 <= |s| && s[start + |token| + 1..] == rest
    ensures TokensFrom(s, d, start) == [token] + TokensFrom(s, d, start + |token| + 1)
  {
    SliceAfter(s, start, token, [d] + rest);
    SliceAfter(s, start + |token|, [d], rest);
    NoDelimiterIn(s, d, start, token);
    FindIs(s, [d], start, start + |token|);
  }

  /** The first of several glued tokens. */
  lemma FirstToken(s: string, d: char, start: nat, ts: seq<string>) returns (next: nat)
    requires |ts| > 1 && d !in ts[0] && start <= |s| && s[start..] == Glued(ts, d)
    ensures next <= |s| && s[next..] == Glued(ts[1..], d)
    ensures TokensFrom(s, d, start) == [ts[0]] + TokensFrom(s, d, next)
  {
    next := start + |ts[0]| + 1;
    assert Glued(ts, d) == ts[0] + ([d] + Glued(ts[1..], d));
    NextToken(s, d, start, ts[0], Glued(ts[1..], d));
  }

  lemma FirstAndRest(ts: seq<string>)
    requires ts != []
    ensures [ts[0]] + ts[1..] == ts
  {
  }

  /** Splitting undoes gluing tokens that hold no delimiter, wherever the text starts. */
  lemma {:induction false} SplitUndoesGlue(s: string, d: char, start: nat, ts: seq<string>)
    requires ts != [] && Free(ts, d) && start <= |s| && s[start..] == Glued(ts, d)
    ensures TokensFrom(s, d, start) == ts
    decreases |ts|
  {
    if |ts| == 1 {
      LastToken(s, d, start, ts[0]);
    } else {
      var next := FirstToken(s, d, start, ts);
      SplitUndoesGlue(s, d, next, ts[1..]);
      FirstAndRest(ts);
    }
  }

  /** Gluing the tokens of any text gives the text back. */
  lemma {:induction false} GlueUndoesSplit(s: string, d: char, start: nat)
    requires start <= |s|
    ensures Glued(TokensFrom(s, d, start), d) == s[start..]
    decreases |s| - start
  {
    match Find(s, [d], start) {
      case None =>
      case Some(end) =>
        AtChar(s, end, d);
        GlueUndoesSplit(s, d, end + 1);
        assert s[start..] == s[start..end] + ([d] + s[end + 1..]);
    }
  }

  /** `std::from_chars` into a 64-bit integer that starts out as 0. */
  function IntegerToken(token: string): (v: int)
    ensures Int64(v)
  {
    var from := if token != "" && token[0] == '-' then 1 else 0;
    var end := DigitsEnd(token, from);
    assert forall k | 0 <= k < end - from :: token[from..end][k] == token[from + k];
    var n: int := Value(token[from..end]);
    var v := if from == 1 then -n else n;
    if Int64(v) then v else 0
  }

  lemma IntegerRoundTrip(v: int)
    requires Int64(v)
    ensures IntegerToken(DecInt(v)) == v && '/' !in DecInt(v)
  {
    var digits := Dec(if v < 0 then -v else v);
    var token := DecInt(v);
    var from := if v < 0 then 1 else 0;
    assert token[from..] == digits + "";
    DigitsInLine(token, from, digits, "");
    assert token[from..from + |digits|] == digits;
    ValueDec(if v < 0 then -v else v);
  }

  /** A number beyond 64 bits reads as 0. */
  lemma IntegerBeyondReadsZero(v: int)
    requires !Int64(v)
    ensures IntegerToken(DecInt(v)) == 0
  {
    var digits := Dec(if v < 0 then -v else v);
    var token := DecInt(v);
    var from := if v < 0 then 1 else 0;
    assert token[from..] == digits + "";
    DigitsInLine(token, from, digits, "");
    assert token[from..from + |digits|] == digits;
    ValueDec(if v < 0 then -v else v);
  }

  function StartOf(payload: string): int { IntegerToken(TokensFrom(payload, '/', 0)[0]) }

  function CurrentOf(payload: string): int {
    var ts := TokensFrom(payload, '/', 0);
    IntegerToken(if |ts| >= 2 then ts[1] else ts[0])
  }

  function EndOf(payload: string): int {
    var ts := TokensFrom(payload, '/', 0);
    if |ts| != 3 then 0 else IntegerToken(ts[2])
  }

  function PrgrText(start: int, current: int, end: int): string {
    Glued([DecInt(start), DecInt(current), DecInt(end)], '/')
  }

  /** The three readers agree with what was printed, negatives included. */
  lemma PrgrRoundTrip(start: int, current: int, end: int)
    requires Int64(start) && Int64(current) && Int64(end)
    ensures var text := PrgrText(start, current, end);
            StartOf(text) == start && CurrentOf(text) == current && EndOf(text) == end
            && |TokensFrom(text, '/', 0)| == 3
  {
    var text := PrgrText(start, current, end);
    assert text[0..] == text;
    IntegerRoundTrip(start);
    IntegerRoundTrip(current);
    IntegerRoundTrip(end);
    var ts := [DecInt(start), DecInt(current), DecInt(end)];
    assert ts[1..][1..] == [DecInt(end)] && Free(ts[1..], '/');
    SplitUndoesGlue(text, '/', 0, ts);
  }

  lemma PhbtRoundTrip(current: int)
    requires Int64(current)
    ensures CurrentOf(DecInt(current)) == current && StartOf(DecInt(current)) == current
  {
    var text := DecInt(current);
    assert text[0..] == text;
    IntegerRoundTrip(current);
    SplitUndoesGlue(text, '/', 0, [text]);
  }

  /** Of two tokens the second is read, although the payload is documented as `current/wall_clock_ns`. */
  lemma PairReadsSecond(current: int, clock: int)
    requires Int64(current) && Int64(clock)
    ensures var text := Glued([DecInt(current), DecInt(clock)], '/');
            CurrentOf(text) == clock && StartOf(text) == current
  {
    var ts := [DecInt(current), DecInt(clock)];
    var text := Glued(ts, '/');
    assert text[0..] == text;
    IntegerRoundTrip(current);
    IntegerRoundTrip(clock);
    assert Free(ts[1..], '/');
    SplitUndoesGlue(text, '/', 0, ts);
  }

  // --- Spans ------------------------------------------------------------------------------

  function RtpSpanToMs(start: int, end: int, rate: int): (ms: int)
    ensures Int32(ms)
  {
    if rate <= 0 || end < start then 0
    else
      var samples := Wrap64(end - start);
      var ms := Quotient(Wrap64(samples * 1000), rate);
      if ms > MAX_SPAN_MS then 0 else Wrap32(ms)
  }

  /** Milliseconds of a span, rounded down, of any length. */
  function Exact(start: int, end: int, rate: int): int
    requires rate > 0
  {
    (end - start) * 1000 / rate
  }

  /** The product of samples and 1000 stays within 64 bits. */
  predicate Fits(start: int, end: int) { (end - start) * 1000 < INT64_LIMIT }

  lemma FittingSpan(start: int, end: int, rate: int)
    requires rate > 0 && start <= end && Fits(start, end)
    ensures 0 <= Exact(start, end, rate)
    ensures RtpSpanToMs(start, end, rate) ==
            if Exact(start, end, rate) <= MAX_SPAN_MS then Exact(start, end, rate) else 0
  {
    DivMono(0, (end - start) * 1000, rate);
    DivIs(0, rate, 0, 0);
  }

  /** Spans of up to eight hours always fit. */
  lemma ShortSpanFits(start: int, end: int, rate: int)
    requires 0 < rate <= INT_MAX && start <= end && Exact(start, end, rate) <= MAX_SPAN_MS
    ensures Fits(start, end)
  {
    var n, q := (end - start) * 1000, Exact(start, end, rate);
    assert n == q * rate + n % rate;
    ProductBelow(q, MAX_SPAN_MS, rate);
  }

  lemma ProductBelow(q: int, limit: nat, r: nat)
    requires q <= limit
    ensures q * r <= limit * r
  {
    assert (limit - q) * r >= 0;
  }

  /** The span is computed exactly if and only if it takes at most eight hours. */
  lemma SpanExactIff(start: int, end: int, rate: int)
    requires 0 < rate <= INT_MAX && start <= end
    ensures RtpSpanToMs(start, end, rate) == Exact(start, end, rate) <==> Exact(start, end, rate) <= MAX_SPAN_MS
  {
    if Exact(start, end, rate) <= MAX_SPAN_MS {
      ShortSpanFits(start, end, rate);
      FittingSpan(start, end, rate);
    } else if Fits(start, end) {
      FittingSpan(start, end, rate);
    } else {
      // beyond 64 bits the exact span is longer than any `int`
      DivMono((INT_MAX + 1) * rate, (end - start) * 1000, rate);
      DivIs((INT_MAX + 1) * rate, rate, INT_MAX + 1, 0);
    }
  }

  /** Spans add up to a millisecond less than the whole, at worst. */
  lemma ExactAdds(a: int, b: int, c: int, rate: int)
    requires rate > 0
    ensures Exact(a, c, rate) == Exact(a, b, rate) + Exact(b, c, rate)
            + if (b - a) * 1000 % rate + (c - b) * 1000 % rate < rate then 0 else 1
  {
    assert (c - a) * 1000 == (b - a) * 1000 + (c - b) * 1000;
    DivAdd((b - a) * 1000, (c - b) * 1000, rate);
  }

  lemma ExactGrows(a: int, b: int, c: int, rate: int)
    requires rate > 0 && b <= c
    ensures Exact(a, b, rate) <= Exact(a, c, rate)
  {
    DivMono((b - a) * 1000, (c - a) * 1000, rate);
  }

  // --- prgr -------------------------------------------------------------------------------

  function PrgrUpdate(payload: string, rate: int): Update {
    var ts := TokensFrom(payload, '/', 0);
    if |ts| != 3 then NO_UPDATE
    else
      var start, current, end := IntegerToken(ts[0]), IntegerToken(ts[1]), IntegerToken(ts[2]);
      if start == 0 && current == 0 && end == 0 then NO_UPDATE
      else
        var u := if current >= start then NO_UPDATE.(positionMs := RtpSpanToMs(start, current, rate), hasPosition := true)
                 else NO_UPDATE;
        if end > start then
          var duration := RtpSpanToMs(start, end, rate);
          u.(durationMs := duration, hasDuration := duration > 0)
        else u
  }

  /** Parsing step by step, as the service does. */
  method ParsePrgrProgress(payload: string, rate: int) returns (update: Update)
    ensures update == PrgrUpdate(payload, rate)
  {
    update := NO_UPDATE;
    var tokens := SplitTokens(payload, '/');
    if |tokens| != 3 {
      return;
    }
    var start, current, end := IntegerToken(tokens[0]), IntegerToken(tokens[1]), IntegerToken(tokens[2]);
    if start == 0 && current == 0 && end == 0 {
      return;
    }
    if current >= start {
      update := update.(positionMs := RtpSpanToMs(start, current, rate), hasPosition := true, playing := true);
    }
    if end > start {
      update := update.(durationMs := RtpSpanToMs(start, end, rate));
      if update.durationMs > 0 {
        update := update.(hasDuration := true, playing := true);
      }
    }
  }

  /** No position outside the duration, when one is reported. */
  predicate InDuration(u: Update) { u.hasDuration ==> u.hasPosition && 0 <= u.positionMs <= u.durationMs }

  /** A printed frame in order whose span fits reports both rounded down, the position within the duration. */
  lemma PrgrWithinDuration(start: int, current: int, end: int, rate: int)
    requires Int64(start) && Int64(current) && Int64(end) && start <= current <= end && Fits(start, end)
    ensures var u := PrgrUpdate(PrgrText(start, current, end), rate);
            InDuration(u) && (u.hasPosition <==> !(start == 0 && end == 0))
            && (u.hasDuration ==> u.positionMs == Exact(start, current, rate) && u.durationMs == Exact(start, end, rate))
  {
    PrgrRoundTrip(start, current, end);
    if rate > 0 {
      ExactGrows(start, current, end, rate);
      FittingSpan(start, current, rate);
      FittingSpan(start, end, rate);
    }
  }

  /** The sample eight hours behind the start. */
  function EightHours(start: int, rate: int): int { start + MAX_SPAN_MS / 1000 * rate }

  lemma EightHoursLong(start: int, rate: int)
    requires 0 < rate <= INT_MAX
    ensures RtpSpanToMs(start, EightHours(start, rate), rate) == MAX_SPAN_MS
    ensures Exact(start, EightHours(start, rate), rate) == MAX_SPAN_MS
  {
    DivIs(MAX_SPAN_MS * rate, rate, MAX_SPAN_MS, 0);
    FittingSpan(start, EightHours(start, rate), rate);
  }

  /**
   Where a duration below eight hours is reported, every frame in order stays within it if and only if
   the product of the track's samples and 1000 fits 64 bits.
   */
  lemma PrgrPositionWithinDurationIff(start: int, end: int, rate: int)
    requires Int64(start) && Int64(end) && start <= end && 0 < rate <= INT_MAX
    requires 0 < RtpSpanToMs(start, end, rate) < MAX_SPAN_MS
    ensures (forall current | start <= current <= end :: InDuration(PrgrUpdate(PrgrText(start, current, end), rate)))
            <==> Fits(start, end)
  {
    if Fits(start, end) {
      forall current | start <= current <= end
        ensures InDuration(PrgrUpdate(PrgrText(start, current, end), rate))
      {
        PrgrWithinDuration(start, current, end, rate);
      }
    } else {
      var current := EightHours(start, rate);
      assert start <= current <= end;
      PrgrRoundTrip(start, current, end);
      EightHoursLong(start, rate);
      assert !InDuration(PrgrUpdate(PrgrText(start, current, end), rate));
    }
  }

  // --- The accumulated position -----------------------------------------------------------

  datatype Track = Track(start: int, end: int, last: int, accumulated: int)

  function Accumulated(t: Track, sample: int, rate: int): int {
    if sample > NANOSECONDS_FROM then
      if t.last > 0 && sample > t.last then Wrap32(t.accumulated + Wrap32((sample - t.last) / NS_PER_MS)) else t.accumulated
    else if sample > 0 then
      if t.last > 0 && sample > t.last then Wrap32(t.accumulated + RtpSpanToMs(t.last, sample, rate))
      else if t.start > 0 && sample > t.start then RtpSpanToMs(t.start, sample, rate)
      else t.accumulated
    else t.accumulated
  }

  /** The position when nothing has been accumulated: counted from the start. */
  function FromStart(accumulated: int, start: int, sample: int, rate: int): int {
    if accumulated <= 0 && start > 0 && sample > start && RtpSpanToMs(start, sample, rate) > 0
    then RtpSpanToMs(start, sample, rate)
    else accumulated
  }

  function Sampled(t: Track, sample: int, rate: int): Track {
    t.(last := if sample > 0 then sample else t.last,
       accumulated := FromStart(Accumulated(t, sample, rate), t.start, sample, rate))
  }

  function WithStart(t: Track, payload: string): Track {
    if t.start <= 0 then t.(start := StartOf(payload)) else t
  }

  function AfterPhbt(t: Track, payload: string, rate: int): Track {
    Sampled(WithStart(t, payload), CurrentOf(payload), rate)
  }

  function PhbtUpdates(t: Track, rate: int): seq<Update> {
    var duration := if t.end > t.start then RtpSpanToMs(t.start, t.end, rate) else 0;
    if t.accumulated > 0 || t.last > 0
    then [Update(t.accumulated, if duration > 0 then duration else -1, true, true, duration > 0)]
    else []
  }

  function AfterPrgr(payload: string): Track { Track(StartOf(payload), EndOf(payload), 0, 0) }

  function AfterPhb0(t: Track, payload: string): Track { Track(StartOf(payload), t.end, 0, 0) }

  class ProgressTracker {
    const rate: int
    var progressStart: int
    var progressEnd: int
    var lastPhbt: int
    var accumulatedMs: int
    var updates: seq<Update>

    constructor (sampleRate: int)
      ensures rate == sampleRate && Position() == Track(0, 0, 0, 0) && updates == []
    {
      rate := sampleRate;
      progressStart, progressEnd, lastPhbt, accumulatedMs := 0, 0, 0, 0;
      updates := [];
    }

    ghost function Position(): Track
      reads this
    {
      Track(progressStart, progressEnd, lastPhbt, accumulatedMs)
    }

    method ResetTracking()
      modifies this
      ensures Position() == Track(0, 0, 0, 0) && updates == old(updates)
    {
      progressStart, progressEnd, lastPhbt, accumulatedMs := 0, 0, 0, 0;
    }

    method OnPrgr(payload: string)
      modifies this
      ensures Position() == AfterPrgr(payload) && updates == old(updates) + [PrgrUpdate(payload, rate)]
    {
      progressStart := StartOf(payload);
      progressEnd := EndOf(payload);
      lastPhbt := 0;
      accumulatedMs := 0;
      var update := ParsePrgrProgress(payload, rate);
      updates := updates + [update];
    }

    method OnPhb0(payload: string)
      modifies this
      ensures Position() == AfterPhb0(old(Position()), payload) && updates == old(updates)
    {
      progressStart := StartOf(payload);
      lastPhbt := 0;
      accumulatedMs := 0;
    }

    method Accumulate(current: int)
      modifies this`lastPhbt, this`accumulatedMs
      ensures accumulatedMs == Accumulated(old(Position()), current, rate)
      ensures lastPhbt == if current > 0 then current else old(lastPhbt)
    {
      if current > NANOSECONDS_FROM {
        if lastPhbt > 0 && current > lastPhbt {
          var delta := current - lastPhbt;
          accumulatedMs := Wrap32(accumulatedMs + Wrap32(delta / NS_PER_MS));
        }
        lastPhbt := current;
      } else if current > 0 {
        if lastPhbt > 0 && current > lastPhbt {
          accumulatedMs := Wrap32(accumulatedMs + RtpSpanToMs(lastPhbt, current, rate));
        } else if progressStart > 0 && current > progressStart {
          accumulatedMs := RtpSpanToMs(progressStart, current, rate);
        }
        lastPhbt := current;
      }
    }

    method OnPhbt(payload: string)
      modifies this
      ensures Position() == AfterPhbt(old(Position()), payload, rate)
      ensures updates == old(updates) + PhbtUpdates(Position(), rate)
    {
      if progressStart <= 0 {
        progressStart := StartOf(payload);
      }
      var current := CurrentOf(payload);
      Accumulate(current);
      var update := NO_UPDATE.(positionMs := accumulatedMs);
      if accumulatedMs <= 0 && progressStart > 0 && current > progressStart {
        var position := RtpSpanToMs(progressStart, current, rate);
        if position > 0 {
          update := update.(positionMs := position);
          accumulatedMs := position;
        }
      }
      if progressEnd > progressStart {
        var duration := RtpSpanToMs(progressStart, progressEnd, rate);
        if duration > 0 {
          update := update.(durationMs := duration, hasDuration := true);
        }
      }
      update := update.(hasPosition := update.positionMs > 0 || lastPhbt > 0);
      if update.hasPosition {
        updates := updates + [update];
      }
    }
  }

  // --- Runs of samples --------------------------------------------------------------------

  function Run(t: Track, samples: seq<int>, rate: int): Track
    decreases |samples|
  {
    if samples == [] then t else Run(Sampled(t, samples[0], rate), samples[1..], rate)
  }

  function Last(from: int, samples: seq<int>): int {
    if samples == [] then from else samples[|samples| - 1]
  }

  /** RTP samples that climb from `from` in steps under eight hours. */
  predicate Climbs(from: int, samples: seq<int>, rate: int)
    requires rate > 0
    decreases |samples|
  {
    samples == [] ||
    (from < samples[0] <= NANOSECONDS_FROM && Exact(from, samples[0], rate) <= MAX_SPAN_MS &&
     Climbs(samples[0], samples[1..], rate))
  }

  /** The position on unbounded integers: step by step, counted from the start while it is zero. */
  function Stepped(start: int, last: int, position: int, sample: int, rate: int): int
    requires rate > 0
  {
    var next := position + Exact(last, sample, rate);
    if next == 0 && Exact(start, sample, rate) <= MAX_SPAN_MS then Exact(start, sample, rate) else next
  }

  function Counted(start: int, last: int, position: int, samples: seq<int>, rate: int): int
    requires rate > 0
    decreases |samples|
  {
    if samples == [] then position
    else Counted(start, samples[0], Stepped(start, last, position, samples[0], rate), samples[1..], rate)
  }

  /** `position` lies between the exact one and `slack` milliseconds below it. */
  predicate Within(start: int, last: int, position: int, slack: int, rate: int)
    requires rate > 0
  {
    0 < start <= last && 0 <= position && Exact(start, last, rate) - slack <= position <= Exact(start, last, rate)
  }

  lemma ExactNotNegative(a: int, b: int, rate: int)
    requires rate > 0 && a <= b
    ensures 0 <= Exact(a, b, rate) && Exact(a, a, rate) == 0
  {
    DivMono(0, (b - a) * 1000, rate);
    DivIs(0, rate, 0, 0);
  }

  lemma NextPosition(start: int, last: int, position: int, c: int, slack: int, rate: int)
    requires rate > 0 && Within(start, last, position, slack, rate) && last < c
    ensures Within(start, c, Stepped(start, last, position, c, rate), slack + 1, rate)
  {
    ExactAdds(start, last, c, rate);
    ExactNotNegative(last, c, rate);
    ExactNotNegative(start, last, rate);
  }

  lemma FirstPosition(start: int, c: int, rate: int)
    requires rate > 0 && 0 < start < c
    ensures Stepped(start, start, 0, c, rate) == Exact(start, c, rate)
    ensures Within(start, c, Exact(start, c, rate), 0, rate)
  {
    ExactNotNegative(start, c, rate);
  }

  lemma {:induction false} CountedWithin(start: int, last: int, position: int, samples: seq<int>, slack: int, rate: int)
    requires rate > 0 && Within(start, last, position, slack, rate) && Climbs(last, samples, rate)
    ensures Within(start, Last(last, samples), Counted(start, last, position, samples, rate), slack + |samples|, rate)
    decreases |samples|
  {
    if samples != [] {
      var c := samples[0];
      NextPosition(start, last, position, c, slack, rate);
      CountedWithin(start, c, Stepped(start, last, position, c, rate), samples[1..], slack + 1, rate);
    }
  }

  /** The tracker holds the unbounded position, wrapped to 32 bits. */
  predicate Holds(t: Track, start: int, last: int, position: int) {
    t.start == start && (t.last == last || (t.last == 0 && last == start && position == 0)) &&
    t.accumulated == Wrap32(position)
  }

  /** Samples up to the nanosecond threshold are near enough to each other. */
  lemma SamplesFit(a: int, b: int)
    requires 0 < a && b <= NANOSECONDS_FROM
    ensures Fits(a, b)
  {
  }

  lemma SampleHolds(t: Track, last: int, position: int, c: int, slack: int, rate: int)
    requires 0 < rate <= INT_MAX && Holds(t, t.start, last, position) && Within(t.start, last, position, slack, rate)
    requires last < c <= NANOSECONDS_FROM && Exact(last, c, rate) <= MAX_SPAN_MS
    ensures Holds(Sampled(t, c, rate), t.start, c, Stepped(t.start, last, position, c, rate))
  {
    var step := Exact(last, c, rate);
    SamplesFit(last, c);
    SamplesFit(t.start, c);
    FittingSpan(last, c, rate);
    FittingSpan(t.start, c, rate);
    WrapAdds(position, step);
    NextPosition(t.start, last, position, c, slack, rate);
    ExactAdds(t.start, last, c, rate);
    assert Accumulated(t, c, rate) == Wrap32(position + step);
  }

  lemma {:induction false} RunHolds(t: Track, last: int, position: int, samples: seq<int>, slack: int, rate: int)
    requires 0 < rate <= INT_MAX && Holds(t, t.start, last, position) && Within(t.start, last, position, slack, rate)
    requires Climbs(last, samples, rate)
    ensures Run(t, samples, rate).accumulated == Wrap32(Counted(t.start, last, position, samples, rate))
    ensures samples != [] ==> Run(t, samples, rate).last == Last(last, samples)
    ensures Run(t, samples, rate).start == t.start && Run(t, samples, rate).end == t.end
    decreases |samples|
  {
    if samples != [] {
      var c := samples[0];
      SampleHolds(t, last, position, c, slack, rate);
      NextPosition(t.start, last, position, c, slack, rate);
      RunHolds(Sampled(t, c, rate), c, Stepped(t.start, last, position, c, rate), samples[1..], slack + 1, rate);
    }
  }

  /**
   After a positive start, climbing samples count a position between the exact one and one millisecond
   below it for every sample but the first, and the tracker holds it, wrapped to 32 bits.
   */
  lemma PositionBounds(start: int, end: int, samples: seq<int>, rate: int)
    requires 0 < rate <= INT_MAX && start > 0 && samples != [] && Climbs(start, samples, rate)
    ensures var r := Run(Track(start, end, 0, 0), samples, rate);
            var position := Counted(start, start, 0, samples, rate);
            var exact := Exact(start, Last(start, samples), rate);
            && exact - (|samples| - 1) <= position <= exact
            && r == Track(start, end, Last(start, samples), Wrap32(position))
            && (r.accumulated == position <==> position <= INT_MAX)
  {
    var t := Track(start, end, 0, 0);
    ExactNotNegative(start, start, rate);
    RunHolds(t, start, 0, samples, 0, rate);
    FirstPosition(start, samples[0], rate);
    CountedWithin(start, samples[0], Exact(start, samples[0], rate), samples[1..], 0, rate);
    assert Last(samples[0], samples[1..]) == Last(start, samples);
  }

  // --- Position and duration --------------------------------------------------------------

  /** Every run of climbing samples up to the end reports a position within the reported duration. */
  ghost predicate PhbtInDuration(start: int, end: int, rate: int)
    requires rate > 0
  {
    forall samples | samples != [] && Climbs(start, samples, rate) && Last(start, samples) <= end ::
      var us := PhbtUpdates(Run(Track(start, end, 0, 0), samples, rate), rate);
      |us| == 1 && InDuration(us[0])
  }

  lemma PhbtWithinDuration(start: int, end: int, samples: seq<int>, rate: int)
    requires 0 < rate <= INT_MAX && start > 0 && samples != [] && Climbs(start, samples, rate)
    requires Last(start, samples) <= end && Fits(start, end)
    ensures var us := PhbtUpdates(Run(Track(start, end, 0, 0), samples, rate), rate);
            |us| == 1 && us[0].hasPosition && InDuration(us[0])
  {
    PositionBounds(start, end, samples, rate);
    var last := Last(start, samples);
    ClimbsUp(start, samples, rate);
    var t := Track(start, end, 0, 0);
    FirstPosition(start, samples[0], rate);
    CountedWithin(start, samples[0], Exact(start, samples[0], rate), samples[1..], 0, rate);
    assert Last(samples[0], samples[1..]) == last;
    ExactGrows(start, last, end, rate);
    FittingSpan(start, end, rate);
  }

  lemma {:induction false} ClimbsUp(from: int, samples: seq<int>, rate: int)
    requires rate > 0 && Climbs(from, samples, rate)
    ensures from <= Last(from, samples) && (samples != [] ==> from < Last(from, samples))
    decreases |samples|
  {
    if samples != [] {
      ClimbsUp(samples[0], samples[1..], rate);
    }
  }

  lemma OneSample(t: Track, c: int, rate: int)
    requires 0 < t.start < c <= NANOSECONDS_FROM && t.last == 0 && t.accumulated == 0
    requires RtpSpanToMs(t.start, c, rate) > 0
    ensures Run(t, [c], rate) == t.(last := c, accumulated := RtpSpanToMs(t.start, c, rate))
  {
    assert [c][1..] == [];
  }

  /** Where the product leaves 64 bits, the sample eight hours in is behind the reported duration. */
  lemma LongTrack(start: int, end: int, rate: int)
    requires 0 < rate <= INT_MAX && 0 < start < end && EightHours(start, rate) <= NANOSECONDS_FROM
    requires 0 < RtpSpanToMs(start, end, rate) < MAX_SPAN_MS && !Fits(start, end)
    ensures !PhbtInDuration(start, end, rate)
  {
    var c := EightHours(start, rate);
    var samples := [c];
    EightHoursLong(start, rate);
    OneSample(Track(start, end, 0, 0), c, rate);
    assert samples[1..] == [];
    assert Climbs(c, samples[1..], rate);
    assert Climbs(start, samples, rate) && Last(start, samples) == c <= end;
  }

  /**
   Where a duration below eight hours is reported, positions stay within it if and only if the product
   of the track's samples and 1000 fits 64 bits.
   */
  lemma PhbtWithinDurationIff(start: int, end: int, rate: int)
    requires 0 < rate <= INT_MAX && 0 < start < end && EightHours(start, rate) <= NANOSECONDS_FROM
    requires 0 < RtpSpanToMs(start, end, rate) < MAX_SPAN_MS
    ensures PhbtInDuration(start, end, rate) <==> Fits(start, end)
  {
    if Fits(start, end) {
      forall samples | samples != [] && Climbs(start, samples, rate) && Last(start, samples) <= end
        ensures var us := PhbtUpdates(Run(Track(start, end, 0, 0), samples, rate), rate);
                |us| == 1 && InDuration(us[0])
      {
        PhbtWithinDuration(start, end, samples, rate);
      }
    } else {
      LongTrack(start, end, rate);
    }
  }

  // --- Wall-clock samples -----------------------------------------------------------------

  /** Nanosecond samples that climb in steps whose milliseconds fit 31 bits. */
  predicate ClockClimbs(from: int, samples: seq<int>)
    decreases |samples|
  {
    samples == [] ||
    (from < samples[0] && NANOSECONDS_FROM < samples[0] && (samples[0] - from) / NS_PER_MS <= INT_MAX &&
     ClockClimbs(samples[0], samples[1..]))
  }

  /** The whole milliseconds of every step. */
  function Elapsed(from: int, samples: seq<int>): int
    decreases |samples|
  {
    if samples == [] then 0 else (samples[0] - from) / NS_PER_MS + Elapsed(samples[0], samples[1..])
  }

  lemma {:induction false} ElapsedBounds(from: int, samples: seq<int>)
    requires ClockClimbs(from, samples)
    ensures from <= Last(from, samples) && 0 <= Elapsed(from, samples)
    ensures var exact := (Last(from, samples) - from) / NS_PER_MS;
            exact - |samples| <= Elapsed(from, samples) <= exact
    decreases |samples|
  {
    if samples != [] {
      var c, last := samples[0], Last(from, samples);
      ElapsedBounds(c, samples[1..]);
      assert Last(c, samples[1..]) == last;
      assert (c - from) + (last - c) == last - from;
      DivAdd(c - from, last - c, NS_PER_MS);
    }
  }

  /** While no millisecond has been counted, no wall clock is taken for a sample counted from the start. */
  predicate NeverFromStart(start: int, from: int, samples: seq<int>, rate: int)
    decreases |samples|
  {
    samples == [] || start <= 0 || (samples[0] - from) / NS_PER_MS > 0 ||
    ((samples[0] > start ==> RtpSpanToMs(start, samples[0], rate) <= 0) &&
     NeverFromStart(start, samples[0], samples[1..], rate))
  }

  lemma NextClock(t: Track, c: int, rate: int)
    requires 0 < t.last < c && NANOSECONDS_FROM < c && 0 <= t.accumulated
    requires t.accumulated + (c - t.last) / NS_PER_MS <= INT_MAX
    requires t.accumulated > 0 || NeverFromStart(t.start, t.last, [c], rate)
    ensures Sampled(t, c, rate) == t.(last := c, accumulated := t.accumulated + (c - t.last) / NS_PER_MS)
  {
    assert 0 <= (c - t.last) / NS_PER_MS;
  }

  lemma {:induction false} ClockRun(t: Track, samples: seq<int>, rate: int)
    requires 0 < t.last && 0 <= t.accumulated && ClockClimbs(t.last, samples)
    requires t.accumulated + Elapsed(t.last, samples) <= INT_MAX
    requires t.accumulated > 0 || NeverFromStart(t.start, t.last, samples, rate)
    ensures Run(t, samples, rate) ==
            t.(last := Last(t.last, samples), accumulated := t.accumulated + Elapsed(t.last, samples))
    decreases |samples|
  {
    if samples != [] {
      ElapsedBounds(samples[0], samples[1..]);
      NextClock(t, samples[0], rate);
      ClockRun(Sampled(t, samples[0], rate), samples[1..], rate);
    }
  }

  /** The position right after the first wall clock: 0, or what the product with 1000 wraps to. */
  function ClockJump(start: int, first: int, rate: int): int {
    FromStart(0, start, first, rate)
  }

  /**
   With the documented payload the position is the whole milliseconds since the first wall clock, each
   later clock losing less than one, on top of a jump that the first clock makes and nothing takes back.
   */
  lemma WallClockBounds(start: int, end: int, first: int, later: seq<int>, rate: int)
    requires NANOSECONDS_FROM < first && ClockClimbs(first, later)
    requires var jump := ClockJump(start, first, rate);
             jump + Elapsed(first, later) <= INT_MAX && (jump > 0 || NeverFromStart(start, first, later, rate))
    ensures var r := Run(Track(start, end, 0, 0), [first] + later, rate);
            var jump, exact := ClockJump(start, first, rate), (Last(first, later) - first) / NS_PER_MS;
            && exact - |later| <= r.accumulated - jump <= exact
            && r == Track(start, end, Last(first, later), jump + Elapsed(first, later))
  {
    var t := Track(start, end, 0, 0);
    assert ([first] + later)[1..] == later;
    assert Sampled(t, first, rate) == Track(start, end, first, ClockJump(start, first, rate));
    ElapsedBounds(first, later);
    ClockRun(Sampled(t, first, rate), later, rate);
  }

  /** A 32-bit start is more than eight hours away from a wall clock; while the product fits, no clock jumps. */
  lemma FittingClock(start: int, c: int, rate: int)
    requires 0 < rate <= 1_000_000 && start < 0x1_0000_0000 && NANOSECONDS_FROM < c && Fits(start, c)
    ensures RtpSpanToMs(start, c, rate) == 0 && ClockJump(start, c, rate) == 0
  {
    var limit := (MAX_SPAN_MS + 1) * rate;
    assert limit <= (c - start) * 1000;
    DivIs(limit, rate, MAX_SPAN_MS + 1, 0);
    DivMono(limit, (c - start) * 1000, rate);
    FittingSpan(start, c, rate);
  }

  lemma {:induction false} FittingClocks(start: int, from: int, samples: seq<int>, rate: int)
    requires 0 < rate <= 1_000_000 && start < 0x1_0000_0000 && ClockClimbs(from, samples)
    requires Fits(start, Last(from, samples))
    ensures NeverFromStart(start, from, samples, rate)
    decreases |samples|
  {
    if samples != [] {
      ElapsedBounds(samples[0], samples[1..]);
      FittingClock(start, samples[0], rate);
      FittingClocks(start, samples[0], samples[1..], rate);
    }
  }

  /** So while the last product fits, the position is counted from the first wall clock. */
  lemma WallClockFromFirst(start: int, end: int, first: int, later: seq<int>, rate: int)
    requires 0 < rate <= 1_000_000 && start < 0x1_0000_0000 && NANOSECONDS_FROM < first && ClockClimbs(first, later)
    requires Fits(start, Last(first, later)) && Elapsed(first, later) <= INT_MAX
    ensures var r := Run(Track(start, end, 0, 0), [first] + later, rate);
            var exact := (Last(first, later) - first) / NS_PER_MS;
            exact - |later| <= r.accumulated <= exact
  {
    ElapsedBounds(first, later);
    FittingClock(start, first, rate);
    FittingClocks(start, first, later, rate);
    WallClockBounds(start, end, first, later, rate);
  }

  /** Clocks of our epoch do not fit: this one, of November 2025, jumps to more than thirteen days. */
  lemma EpochClockJumps(end: int)
    ensures var clock := 1_763_500_000_000_000_000;
            !Fits(1_000_000, clock) && Run(Track(1_000_000, end, 0, 0), [clock], 44100).accumulated == 1_165_520_334
  {
    EpochJump();
    var clock := 1_763_500_000_000_000_000;
    assert [clock] + [] == [clock];
    WallClockBounds(1_000_000, end, clock, [], 44100);
  }

  lemma EpochJump()
    ensures ClockJump(1_000_000, 1_763_500_000_000_000_000, 44100) == 1_165_520_334
  {
    var product := 1_763_499_999_999_000_000 * 1000;
    assert Wrap64(product) == product - 96 * 2 * INT64_LIMIT;
    assert Quotient(product - 96 * 2 * INT64_LIMIT, 44100) == -167_515_443_925_554;
  }

  // --- How far it drifts ------------------------------------------------------------------

  /**
   A step from an exact position stays exact if and only if the two remainders make no whole millisecond
   and the position fits 32 bits.
   */
  lemma StaysExactIff(t: Track, c: int, rate: int)
    requires 0 < rate <= INT_MAX && 0 < t.start < t.last < c <= NANOSECONDS_FROM
    requires 0 < t.accumulated == Exact(t.start, t.last, rate) <= INT_MAX && Exact(t.last, c, rate) <= MAX_SPAN_MS
    ensures Sampled(t, c, rate).accumulated == Exact(t.start, c, rate)
            <==> (t.last - t.start) * 1000 % rate + (c - t.last) * 1000 % rate < rate && Exact(t.start, c, rate) <= INT_MAX
  {
    var position := Exact(t.start, t.last, rate);
    ExactAdds(t.start, t.last, c, rate);
    ExactNotNegative(t.last, c, rate);
    SampleHolds(t, t.last, position, c, 0, rate);
  }

  predicate SmallSteps(from: int, samples: seq<int>, rate: int)
    decreases |samples|
  {
    samples == [] ||
    (from < samples[0] <= NANOSECONDS_FROM && (samples[0] - from) * 1000 < rate &&
     SmallSteps(samples[0], samples[1..], rate))
  }

  /** Steps of less than a millisecond are lost: once positive, the position stands still. */
  lemma {:induction false} SmallStepsStandStill(t: Track, samples: seq<int>, rate: int)
    requires t.last > 0 && 0 < t.accumulated <= INT_MAX && SmallSteps(t.last, samples, rate)
    ensures Run(t, samples, rate).accumulated == t.accumulated
    decreases |samples|
  {
    if samples != [] {
      var c := samples[0];
      DivIs((c - t.last) * 1000, rate, 0, (c - t.last) * 1000);
      SamplesFit(t.last, c);
      FittingSpan(t.last, c, rate);
      SmallStepsStandStill(Sampled(t, c, rate), samples[1..], rate);
    }
  }
}
