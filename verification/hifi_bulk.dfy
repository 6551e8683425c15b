/**
 Bulk replies of the Hi-Fi controller: `#Z0NAME` or `#Z0VOLUME` followed by one segment
 `Z<i>KEYWORD<value>` for each zone, scanned from left to right.
 */
module HifiBulk {
  import opened Machine
  import opened Text
  import opened HifiQuoting

  /** Which family of replies is read: zones up to 16 or sources up to 8. */
  datatype Family = Family(prefix: char, maxIndex: MaxIndex)

  /** An `int`, as every index is. */
  type MaxIndex = n: nat | n <= INT_MAX

  predicate InRange(f: Family, index: nat) { 1 <= index <= f.maxIndex }

  ghost predicate Known(f: Family) { f.prefix == 'Z' || f.prefix == 'S' || f.prefix == 'G' }

  // --- Markers ----------------------------------------------------------------------------

  /** `<prefix><index><keyword>` at `pos`: the index and where the value starts. */
  function Marker(line: string, pos: nat, f: Family, keyword: string): (r: Option<(nat, nat)>)
    ensures r.Some? ==> pos < r.value.1 <= |line| && 1 <= r.value.0 <= f.maxIndex && line[pos] == f.prefix
  {
    if pos + 1 >= |line| || line[pos] != f.prefix || line[pos + 1] == '0' || !IsDigit(line[pos + 1]) then None
    else
      var scan := DigitsEnd(line, pos + 1);
      var index := NumberAt(line, pos + 1);
      if index <= 0 || index > f.maxIndex || !At(line, scan, keyword) then None
      else Some((index, scan + |keyword|))
  }

  method FindMarker(line: string, pos: nat, f: Family, keyword: string) returns (r: Option<(nat, nat)>)
    ensures r == Marker(line, pos, f, keyword)
  {
    if pos + 1 >= |line| || line[pos] != f.prefix {
      return None;
    }
    if line[pos + 1] == '0' || !IsDigit(line[pos + 1]) {
      return None;
    }
    var index, scan := ScanDigits(line, pos + 1);
    if index <= 0 || index > f.maxIndex {
      return None;
    }
    if scan + |keyword| > |line| || line[scan..scan + |keyword|] != keyword {
      return None;
    }
    return Some((index, scan + |keyword|));
  }

  function MarkerText(f: Family, index: nat, keyword: string): string { [f.prefix] + Dec(index) + keyword }

  ghost predicate Keyword(f: Family, k: string) { k != "" && !IsDigit(k[0]) && f.prefix !in k }

  /** A printed marker is found where it was printed. */
  lemma MarkerRoundTrip(line: string, pos: nat, f: Family, index: nat, keyword: string, rest: string)
    requires pos <= |line| && line[pos..] == MarkerText(f, index, keyword) + rest
    requires Keyword(f, keyword) && 1 <= index <= f.maxIndex
    ensures var start := pos + |MarkerText(f, index, keyword)|;
            start <= |line| && line[start..] == rest &&
            Marker(line, pos, f, keyword) == Some((index, start))
  {
    var digits := Dec(index);
    MarkerPieces([f.prefix], digits, keyword, rest);
    SliceAfter(line, pos, [f.prefix], digits + (keyword + rest));
    NumberRoundTrip(line, pos + 1, index, keyword + rest);
    SliceAfter(line, pos + 1, digits, keyword + rest);
    SliceAfter(line, pos + 1 + |digits|, keyword, rest);
    assert line[pos] == line[pos..pos + 1][0];
    assert line[pos + 1] == line[pos + 1..pos + 1 + |digits|][0];
  }

  lemma MarkerPieces(a: string, b: string, c: string, d: string)
    ensures a + b + c + d == a + (b + (c + d))
  {
  }

  // --- Values -----------------------------------------------------------------------------

  /** The segment at `pos`, if one starts there: index, value, and where it ends. */
  function ValueHere(line: string, pos: nat, f: Family, keyword: string): (r: Option<(nat, int, nat)>)
    ensures r.Some? ==> pos < r.value.2 <= |line| && InRange(f, r.value.0)
  {
    match Marker(line, pos, f, keyword)
    case None => None
    case Some((index, start)) =>
      if SuffixEnd(line, start) <= start then None else Some((index, IntSuffix(line, start), SuffixEnd(line, start)))
  }

  /** `emit_prefixed_value_bulk` from `pos` on. */
  function ValuesFrom(line: string, pos: nat, f: Family, keyword: string): seq<(nat, int)>
    decreases |line| - pos
  {
    if pos >= |line| then []
    else match ValueHere(line, pos, f, keyword)
      case None => ValuesFrom(line, pos + 1, f, keyword)
      case Some((index, value, end)) => [(index, value)] + ValuesFrom(line, end, f, keyword)
  }

  method EmitValueBulk(line: string, f: Family, keyword: string) returns (out: seq<(nat, int)>)
    ensures out == ValuesFrom(line, 0, f, keyword)
  {
    out := [];
    var pos := 0;
    while pos < |line|
      invariant out + ValuesFrom(line, pos, f, keyword) == ValuesFrom(line, 0, f, keyword)
      decreases |line| - pos
    {
      var marker := FindMarker(line, pos, f, keyword);
      if marker.None? {
        pos := pos + 1;
        continue;
      }
      var (index, start) := marker.value;
      var value, end := ParseIntSuffix(line, start);
      assert ValueHere(line, pos, f, keyword) == if end <= start then None else Some((index, value, end));
      if end <= start {
        pos := pos + 1;
        continue;
      }
      Joins(out, [(index, value)], ValuesFrom(line, end, f, keyword));
      out := out + [(index, value)];
      pos := end;
    }
  }

  function ValueSegments(vs: seq<(nat, int)>, f: Family, keyword: string): string {
    if vs == [] then ""
    else MarkerText(f, vs[0].0, keyword) + (DecInt(vs[0].1) + ValueSegments(vs[1..], f, keyword))
  }

  /** The whole reply: the marker of index 0 and the segments. */
  function ValueReply(vs: seq<(nat, int)>, f: Family, keyword: string): string {
    "#" + MarkerText(f, 0, keyword) + ValueSegments(vs, f, keyword)
  }

  /** Nothing in the head of a reply is a marker. */
  lemma HeadHasNoMarker(line: string, f: Family, keyword: string, rest: string, pos: nat)
    requires line == "#" + MarkerText(f, 0, keyword) + rest && Keyword(f, keyword) && Known(f)
    requires pos < |"#" + MarkerText(f, 0, keyword)|
    ensures Marker(line, pos, f, keyword) == None
  {
  }

  lemma NoValueHere(line: string, pos: nat, f: Family, keyword: string)
    requires pos < |line| && Marker(line, pos, f, keyword) == None
    ensures ValuesFrom(line, pos, f, keyword) == ValuesFrom(line, pos + 1, f, keyword)
  {
  }

  lemma {:induction false} SkipValues(line: string, f: Family, keyword: string, pos: nat, end: nat)
    requires pos <= end <= |line| && forall p: nat | pos <= p < end :: Marker(line, p, f, keyword) == None
    ensures ValuesFrom(line, pos, f, keyword) == ValuesFrom(line, end, f, keyword)
    decreases end - pos
  {
    if pos < end {
      NoValueHere(line, pos, f, keyword);
      SkipValues(line, f, keyword, pos + 1, end);
    }
  }

  lemma SegmentsStart(vs: seq<(nat, int)>, f: Family, keyword: string)
    requires Known(f)
    ensures var s := ValueSegments(vs, f, keyword); s == "" || !IsDigit(s[0])
  {
  }

  lemma NextSegment(line: string, pos: nat, vs: seq<(nat, int)>, f: Family, keyword: string) returns (next: nat)
    requires pos <= |line| && line[pos..] == ValueSegments(vs, f, keyword) && vs != []
    requires Keyword(f, keyword) && Known(f) && InRange(f, vs[0].0) && Int32(vs[0].1)
    ensures ValueHere(line, pos, f, keyword) == Some((vs[0].0, vs[0].1, next))
    ensures next <= |line| && line[next..] == ValueSegments(vs[1..], f, keyword)
  {
    var rest := ValueSegments(vs[1..], f, keyword);
    SegmentsStart(vs[1..], f, keyword);
    next := SegmentAt(line, pos, f, vs[0].0, keyword, vs[0].1, rest);
  }

  lemma SegmentAt(line: string, pos: nat, f: Family, index: nat, keyword: string, value: int, rest: string)
    returns (next: nat)
    requires pos <= |line| && line[pos..] == MarkerText(f, index, keyword) + (DecInt(value) + rest)
    requires Keyword(f, keyword) && Known(f) && InRange(f, index) && Int32(value)
    requires rest == "" || !IsDigit(rest[0])
    ensures ValueHere(line, pos, f, keyword) == Some((index, value, next))
    ensures next <= |line| && line[next..] == rest
  {
    var digits := DecInt(value);
    MarkerRoundTrip(line, pos, f, index, keyword, digits + rest);
    var start := Marker(line, pos, f, keyword).value.1;
    SuffixRoundTrip(line, start, value, rest);
    SliceAfter(line, start, digits, rest);
    next := start + |digits|;
    assert |digits| > 0;
  }

  lemma FirstAndRest(vs: seq<(nat, int)>)
    requires vs != []
    ensures [(vs[0].0, vs[0].1)] + vs[1..] == vs
  {
  }

  lemma {:induction false} ValueSegmentsParse(line: string, pos: nat, vs: seq<(nat, int)>, f: Family, keyword: string)
    requires pos <= |line| && line[pos..] == ValueSegments(vs, f, keyword)
    requires Keyword(f, keyword) && Known(f) && forall k | 0 <= k < |vs| :: InRange(f, vs[k].0) && Int32(vs[k].1)
    ensures ValuesFrom(line, pos, f, keyword) == vs
    decreases |vs|
  {
    if vs != [] {
      var next := NextSegment(line, pos, vs, f, keyword);
      ValueSegmentsParse(line, next, vs[1..], f, keyword);
      FirstAndRest(vs);
    }
  }

  /** Whatever the line, only indices of the family and 32-bit values are reported. */
  lemma {:induction false} ValuesInRange(line: string, pos: nat, f: Family, keyword: string)
    ensures forall k | 0 <= k < |ValuesFrom(line, pos, f, keyword)| ::
              InRange(f, ValuesFrom(line, pos, f, keyword)[k].0) && Int32(ValuesFrom(line, pos, f, keyword)[k].1)
    decreases |line| - pos
  {
    if pos < |line| {
      var here := ValueHere(line, pos, f, keyword);
      ValuesInRange(line, if here.Some? then here.value.2 else pos + 1, f, keyword);
    }
  }

  /** A segment without a number reports nothing, and the scan goes on behind it. */
  lemma EmptySegmentReportsNothing(line: string, pos: nat, f: Family, index: nat, keyword: string, rest: string)
    requires pos <= |line| && line[pos..] == MarkerText(f, index, keyword) + rest
    requires Keyword(f, keyword) && Known(f) && InRange(f, index) && (rest == "" || rest[0] == f.prefix)
    ensures pos + |MarkerText(f, index, keyword)| <= |line|
    ensures ValuesFrom(line, pos, f, keyword) == ValuesFrom(line, pos + |MarkerText(f, index, keyword)|, f, keyword)
  {
    var start := pos + |MarkerText(f, index, keyword)|;
    MarkerRoundTrip(line, pos, f, index, keyword, rest);
    assert start < |line| ==> line[start] == line[start..][0];
    assert ValueHere(line, pos, f, keyword) == None;
    forall p | pos < p < start ensures Marker(line, p, f, keyword) == None {
      assert line[p] == line[pos..][p - pos] == MarkerText(f, index, keyword)[p - pos];
    }
    SkipValues(line, f, keyword, pos + 1, start);
  }

  lemma ReplyParses(vs: seq<(nat, int)>, f: Family, keyword: string)
    requires Keyword(f, keyword) && Known(f)
    requires forall k | 0 <= k < |vs| :: InRange(f, vs[k].0) && Int32(vs[k].1)
    ensures ValuesFrom(ValueReply(vs, f, keyword), 0, f, keyword) == vs
  {
    var head := "#" + MarkerText(f, 0, keyword);
    var segments := ValueSegments(vs, f, keyword);
    var line := ValueReply(vs, f, keyword);
    forall p: nat | p < |head| ensures Marker(line, p, f, keyword) == None {
      HeadHasNoMarker(line, f, keyword, segments, p);
    }
    SkipValues(line, f, keyword, 0, |head|);
    assert line[|head|..] == segments;
    ValueSegmentsParse(line, |head|, vs, f, keyword);
  }

  /**
   A bulk value reply parses back to the printed list exactly when every index is one of the family and
   every value fits 32 bits; and the accumulator never wraps on the way exactly when, besides, no value
   is the lowest of them.
   */
  lemma ValueBulkRoundTripIff(vs: seq<(nat, int)>, f: Family, keyword: string)
    requires Keyword(f, keyword) && Known(f)
    ensures ValuesFrom(ValueReply(vs, f, keyword), 0, f, keyword) == vs <==>
            forall k | 0 <= k < |vs| :: InRange(f, vs[k].0) && Int32(vs[k].1)
    ensures ValuesFrom(ValueReply(vs, f, keyword), 0, f, keyword) == vs
            && (forall k | 0 <= k < |vs| :: AccumulatorFits(vs[k].1)) <==>
            forall k | 0 <= k < |vs| :: InRange(f, vs[k].0) && -INT_MAX <= vs[k].1 <= INT_MAX
  {
    var line := ValueReply(vs, f, keyword);
    ValuesInRange(line, 0, f, keyword);
    if forall k | 0 <= k < |vs| :: InRange(f, vs[k].0) && Int32(vs[k].1) {
      ReplyParses(vs, f, keyword);
    }
    forall k | 0 <= k < |vs| ensures AccumulatorFits(vs[k].1) <==> -INT_MAX <= vs[k].1 <= INT_MAX {
      AccumulatorFitsIff(vs[k].1);
    }
  }
}
