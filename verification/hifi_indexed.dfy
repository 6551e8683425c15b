/**
 The bulk parsers that look for each index in turn, highest first, and never read the same
 characters twice: ENABLE flags, bare numbers, and quoted names.
 */
module HifiIndexed {
  import opened Text
  import opened HifiQuoting
  import opened HifiBulk

  datatype Kind = Flags | Numbers | QuotedNames

  datatype Reading = Flag(on: bool) | Number(value: int) | Name(text: string)

  /** One update and the span of the line it was read from. */
  datatype Hit = Hit(index: nat, reading: Reading, start: nat, end: nat)

  const ENABLE := "ENABLE"

  function KindMarker(f: Family, kind: Kind, index: nat): string {
    MarkerText(f, index, if kind == Flags then ENABLE else "")
  }

  /** `bulk_marker_shadowed`: a longer index starts here as well. */
  predicate Shadowed(line: string, f: Family, index: nat, pos: nat) {
    f.maxIndex >= 10 &&
    exists longer | index < longer <= f.maxIndex ::
      |Dec(longer)| > |Dec(index)| && At(line, pos, MarkerText(f, longer, ""))
  }

  method IsShadowed(line: string, f: Family, index: nat, pos: nat) returns (r: bool)
    ensures r == Shadowed(line, f, index, pos)
  {
    if f.maxIndex < 10 {
      return false;
    }
    var longer := f.maxIndex;
    while longer > index
      invariant forall k | longer < k <= f.maxIndex && index < k ::
        !(|Dec(k)| > |Dec(index)| && At(line, pos, MarkerText(f, k, "")))
    {
      if |Dec(longer)| > |Dec(index)| && At(line, pos, MarkerText(f, longer, "")) {
        return true;
      }
      longer := longer - 1;
    }
    return false;
  }

  /** The value that starts at `start` and where it ends. */
  function ReadingAt(line: string, kind: Kind, start: nat): (r: Option<(Reading, nat)>)
    ensures r.Some? && start <= |line| ==> start <= r.value.1 <= |line|
  {
    match kind
    case Flags =>
      if start >= |line| || (line[start] != '0' && line[start] != '1') then None
      else Some((Flag(line[start] == '1'), start + 1))
    case Numbers => Some((Number(IntSuffix(line, start)), SuffixEnd(line, start)))
    case QuotedNames =>
      if start >= |line| || line[start] != '"' then None
      else match ParseQuoted(line, start)
        case None => None
        case Some(text) => Some((Name(text), QuotedValueEnd(line, start)))
  }

  method ReadValue(line: string, kind: Kind, start: nat) returns (r: Option<(Reading, nat)>)
    ensures r == ReadingAt(line, kind, start)
  {
    match kind {
      case Flags =>
        if start >= |line| || (line[start] != '0' && line[start] != '1') {
          return None;
        }
        return Some((Flag(line[start] == '1'), start + 1));
      case Numbers =>
        var value, end := ParseIntSuffix(line, start);
        return Some((Number(value), end));
      case QuotedNames =>
        if start >= |line| || line[start] != '"' {
          return None;
        }
        var text := ParseQuotedValue(line, start);
        if text.None? {
          return None;
        }
        var end := FindQuotedValueEnd(line, start);
        return Some((Name(text.value), end));
    }
  }

  predicate Overlaps(taken: seq<Hit>, start: nat, end: nat) {
    exists k | 0 <= k < |taken| :: start < taken[k].end && end > taken[k].start
  }

  /** What the scan makes of a marker of `index` at `pos`. */
  function HitAt(line: string, f: Family, kind: Kind, index: nat, taken: seq<Hit>, pos: nat): Option<Hit> {
    if Shadowed(line, f, index, pos) then None
    else match ReadingAt(line, kind, pos + |KindMarker(f, kind, index)|)
      case None => None
      case Some((reading, end)) => if Overlaps(taken, pos, end) then None else Some(Hit(index, reading, pos, end))
  }

  /** The first usable marker of `index` from `from` on. */
  function FirstHit(line: string, f: Family, kind: Kind, index: nat, taken: seq<Hit>, from: nat): Option<Hit>
    decreases |line| - from
  {
    match Find(line, KindMarker(f, kind, index), from)
    case None => None
    case Some(pos) =>
      var hit := HitAt(line, f, kind, index, taken, pos);
      if hit.Some? then hit
      else if pos < |line| then FirstHit(line, f, kind, index, taken, pos + 1) else None
  }

  /** The updates for the indices from `index` down, after those already `taken`. */
  function HitsFrom(line: string, f: Family, kind: Kind, index: nat, taken: seq<Hit>): seq<Hit>
    decreases index
  {
    if index == 0 then taken
    else match FirstHit(line, f, kind, index, taken, 0)
      case None => HitsFrom(line, f, kind, index - 1, taken)
      case Some(hit) => HitsFrom(line, f, kind, index - 1, taken + [hit])
  }

  method OverlapsTaken(taken: seq<Hit>, start: nat, end: nat) returns (r: bool)
    ensures r == Overlaps(taken, start, end)
  {
    for k := 0 to |taken|
      invariant forall j | 0 <= j < k :: !(start < taken[j].end && end > taken[j].start)
    {
      if start < taken[k].end && end > taken[k].start {
        return true;
      }
    }
    return false;
  }

  method TryMarker(line: string, f: Family, kind: Kind, index: nat, taken: seq<Hit>, pos: nat) returns (r: Option<Hit>)
    ensures r == HitAt(line, f, kind, index, taken, pos)
  {
    var shadowed := IsShadowed(line, f, index, pos);
    if shadowed {
      return None;
    }
    var reading := ReadValue(line, kind, pos + |KindMarker(f, kind, index)|);
    if reading.None? {
      return None;
    }
    var end := reading.value.1;
    var overlapping := OverlapsTaken(taken, pos, end);
    if overlapping {
      return None;
    }
    return Some(Hit(index, reading.value.0, pos, end));
  }

  method SearchIndex(line: string, f: Family, kind: Kind, index: nat, taken: seq<Hit>) returns (r: Option<Hit>)
    ensures r == FirstHit(line, f, kind, index, taken, 0)
  {
    var searchFrom := 0;
    while searchFrom < |line|
      invariant FirstHit(line, f, kind, index, taken, searchFrom) == FirstHit(line, f, kind, index, taken, 0)
    {
      var pos := Find(line, KindMarker(f, kind, index), searchFrom);
      if pos.None? {
        return None;
      }
      r := TryMarker(line, f, kind, index, taken, pos.value);
      if r.Some? {
        return;
      }
      searchFrom := pos.value + 1;
    }
    return None;
  }

  method EmitByIndex(line: string, f: Family, kind: Kind) returns (hits: seq<Hit>)
    ensures hits == HitsFrom(line, f, kind, f.maxIndex, [])
  {
    hits := [];
    var index := f.maxIndex;
    while index >= 1
      invariant HitsFrom(line, f, kind, index, hits) == HitsFrom(line, f, kind, f.maxIndex, [])
    {
      var hit := SearchIndex(line, f, kind, index, hits);
      if hit.Some? {
        hits := hits + [hit.value];
      }
      index := index - 1;
    }
  }

  // --- Any line ---------------------------------------------------------------------------

  /** Strictly falling indices, spans inside the line that share no character. */
  ghost predicate WellSpread(hits: seq<Hit>, line: string, f: Family, below: nat) {
    (forall i | 0 <= i < |hits| ::
      below < hits[i].index <= f.maxIndex && hits[i].start < hits[i].end <= |line|) &&
    (forall i, j | 0 <= i < j < |hits| ::
      hits[i].index > hits[j].index && (hits[i].end <= hits[j].start || hits[j].end <= hits[i].start))
  }

  ghost predicate Usable(h: Hit, line: string, f: Family, kind: Kind, index: nat, taken: seq<Hit>) {
    h.index == index && h.start < h.end <= |line| && !Overlaps(taken, h.start, h.end) &&
    At(line, h.start, KindMarker(f, kind, index))
  }

  lemma HitAtIs(line: string, f: Family, kind: Kind, index: nat, taken: seq<Hit>, pos: nat)
    requires At(line, pos, KindMarker(f, kind, index))
    ensures match HitAt(line, f, kind, index, taken, pos)
            case None => true
            case Some(h) => Usable(h, line, f, kind, index, taken)
  {
  }

  lemma {:induction false} FirstHitUsable(line: string, f: Family, kind: Kind, index: nat, taken: seq<Hit>, from: nat)
    ensures match FirstHit(line, f, kind, index, taken, from)
            case None => true
            case Some(h) => Usable(h, line, f, kind, index, taken)
    decreases |line| - from
  {
    var r := Find(line, KindMarker(f, kind, index), from);
    if r.Some? {
      HitAtIs(line, f, kind, index, taken, r.value);
      FirstHitUsable(line, f, kind, index, taken, r.value + 1);
    }
  }

  /** A search without result has passed over its first marker. */
  lemma PassedOver(line: string, f: Family, kind: Kind, index: nat, taken: seq<Hit>, from: nat, pos: nat)
    requires FirstHit(line, f, kind, index, taken, from) == None
    requires Find(line, KindMarker(f, kind, index), from) == Some(pos) && pos < |line|
    ensures HitAt(line, f, kind, index, taken, pos) == None
    ensures FirstHit(line, f, kind, index, taken, pos + 1) == None
  {
  }

  /** The first marker from `from` on is at `pos` or before it. */
  lemma FirstMarker(line: string, pat: string, from: nat, pos: nat) returns (first: nat)
    requires from <= pos && At(line, pos, pat) && pat != ""
    ensures Find(line, pat, from) == Some(first) && from <= first <= pos < |line|
  {
    first := Find(line, pat, from).value;
  }

  lemma {:induction false} NoFirstHit(line: string, f: Family, kind: Kind, index: nat, taken: seq<Hit>, from: nat,
                                      pos: nat)
    requires FirstHit(line, f, kind, index, taken, from) == None
    requires from <= pos && At(line, pos, KindMarker(f, kind, index))
    ensures HitAt(line, f, kind, index, taken, pos) == None
    decreases |line| - from
  {
    hide HitAt;
    var first := FirstMarker(line, KindMarker(f, kind, index), from, pos);
    PassedOver(line, f, kind, index, taken, from, first);
    if first < pos {
      NoFirstHit(line, f, kind, index, taken, first + 1, pos);
    }
  }

  lemma ExtendSpread(line: string, f: Family, kind: Kind, index: nat, taken: seq<Hit>, hit: Hit)
    requires 0 < index <= f.maxIndex && WellSpread(taken, line, f, index)
    requires Usable(hit, line, f, kind, index, taken)
    ensures WellSpread(taken + [hit], line, f, index - 1)
  {
  }

  /** On every line: at most one update an index, highest first, from disjoint spans of the line. */
  lemma {:induction false} HitsSpread(line: string, f: Family, kind: Kind, index: nat, taken: seq<Hit>)
    requires index <= f.maxIndex && WellSpread(taken, line, f, index)
    ensures WellSpread(HitsFrom(line, f, kind, index, taken), line, f, 0)
    decreases index
  {
    if index > 0 {
      FirstHitUsable(line, f, kind, index, taken, 0);
      match FirstHit(line, f, kind, index, taken, 0)
      case None => HitsSpread(line, f, kind, index - 1, taken);
      case Some(hit) =>
        ExtendSpread(line, f, kind, index, taken, hit);
        HitsSpread(line, f, kind, index - 1, taken + [hit]);
    }
  }

  lemma {:induction false} HitsKeep(line: string, f: Family, kind: Kind, index: nat, taken: seq<Hit>)
    ensures taken <= HitsFrom(line, f, kind, index, taken)
    decreases index
  {
    if index > 0 {
      match FirstHit(line, f, kind, index, taken, 0)
      case None => HitsKeep(line, f, kind, index - 1, taken);
      case Some(hit) => HitsKeep(line, f, kind, index - 1, taken + [hit]);
    }
  }

  /** An index without an update has only markers that are shadowed, unreadable or inside another span. */
  lemma {:induction false} MissingIndex(line: string, f: Family, kind: Kind, index: nat, taken: seq<Hit>,
                                        all: seq<Hit>, k: nat, pos: nat)
    requires index <= f.maxIndex && WellSpread(taken, line, f, index) && 1 <= k <= index
    requires all == HitsFrom(line, f, kind, index, taken) && forall h | h in all :: h.index != k
    requires At(line, pos, KindMarker(f, kind, k))
    ensures HitAt(line, f, kind, k, all, pos) == None
    decreases index
  {
    FirstHitUsable(line, f, kind, index, taken, 0);
    var first := FirstHit(line, f, kind, index, taken, 0);
    var now := if first.Some? then taken + [first.value] else taken;
    HitsKeep(line, f, kind, index - 1, now);
    if first.Some? {
      ExtendSpread(line, f, kind, index, taken, first.value);
      assert all[|taken|] == now[|taken|] == first.value && all[|taken|] in all;
    }
    if k < index {
      MissingIndex(line, f, kind, index - 1, now, all, k, pos);
    } else {
      NoFirstHit(line, f, kind, k, taken, 0, pos);
      MoreTaken(line, f, kind, k, taken, all, pos);
    }
  }

  lemma MoreTaken(line: string, f: Family, kind: Kind, index: nat, taken: seq<Hit>, more: seq<Hit>, pos: nat)
    requires taken <= more && HitAt(line, f, kind, index, taken, pos) == None
    ensures HitAt(line, f, kind, index, more, pos) == None
  {
  }

  // --- Printed replies --------------------------------------------------------------------

  /** The entries of `m` from index `k` down. */
  function Expected<T>(m: map<nat, T>, k: nat): seq<(nat, T)> {
    if k == 0 then [] else (if k in m then [(k, m[k])] else []) + Expected(m, k - 1)
  }

  /** `list` names every key of `m` once. */
  ghost predicate Prints<T>(list: seq<(nat, T)>, m: map<nat, T>) {
    (forall j | 0 <= j < |list| :: list[j].0 in m && m[list[j].0] == list[j].1) &&
    (forall k | k in m :: exists j | 0 <= j < |list| :: list[j].0 == k) &&
    (forall i, j | 0 <= i < j < |list| :: list[i].0 != list[j].0)
  }

  lemma {:induction false} ExpectedBelow<T>(m: map<nat, T>, k: nat)
    ensures forall b | 0 <= b < |Expected(m, k)| :: Expected(m, k)[b].0 <= k
  {
    if k > 0 {
      ExpectedBelow(m, k - 1);
      var rest := Expected(m, k - 1);
      forall b | 0 <= b < |Expected(m, k)| ensures Expected(m, k)[b].0 <= k {
        if k !in m { assert Expected(m, k) == rest; } else if b > 0 { assert Expected(m, k)[b] == rest[b - 1]; }
      }
    }
  }

  /** `Expected` is the map itself, cut to the family and put in order. */
  lemma {:induction false} ExpectedIsMap<T>(m: map<nat, T>, k: nat)
    ensures forall e: (nat, T) :: e in Expected(m, k) <==> 1 <= e.0 <= k && e.0 in m && m[e.0] == e.1
    ensures forall a, b | 0 <= a < b < |Expected(m, k)| :: Expected(m, k)[a].0 > Expected(m, k)[b].0
  {
    if k > 0 {
      ExpectedIsMap(m, k - 1);
      ExpectedBelow(m, k - 1);
      var rest := Expected(m, k - 1);
      if k in m {
        assert forall e: (nat, T) | e.0 == k && e.1 == m[k] :: e == (k, m[k]);
      }
    }
  }

  lemma HitIs(line: string, f: Family, kind: Kind, index: nat, taken: seq<Hit>, pos: nat, reading: Reading, end: nat)
    requires !Shadowed(line, f, index, pos) && !Overlaps(taken, pos, end)
    requires ReadingAt(line, kind, pos + |KindMarker(f, kind, index)|) == Some((reading, end))
    ensures HitAt(line, f, kind, index, taken, pos) == Some(Hit(index, reading, pos, end))
  {
  }

  lemma ShadowedIsNone(line: string, f: Family, kind: Kind, index: nat, taken: seq<Hit>, pos: nat, longer: nat)
    requires index < longer <= f.maxIndex && |Dec(longer)| > |Dec(index)| && At(line, pos, MarkerText(f, longer, ""))
    ensures HitAt(line, f, kind, index, taken, pos) == None
  {
    assert |Dec(longer)| >= 2;
  }

  lemma HitsStep(line: string, f: Family, kind: Kind, index: nat, taken: seq<Hit>, hit: Option<Hit>)
    requires index > 0 && FirstHit(line, f, kind, index, taken, 0) == hit
    ensures HitsFrom(line, f, kind, index, taken) ==
            HitsFrom(line, f, kind, index - 1, if hit.Some? then taken + [hit.value] else taken)
  {
  }

  lemma SearchGoesOn(line: string, f: Family, kind: Kind, index: nat, taken: seq<Hit>, from: nat, first: nat)
    requires Find(line, KindMarker(f, kind, index), from) == Some(first) && first < |line|
    requires HitAt(line, f, kind, index, taken, first) == None
    ensures FirstHit(line, f, kind, index, taken, from) == FirstHit(line, f, kind, index, taken, first + 1)
  {
  }

  /** The first marker that is usable is the hit. */
  lemma {:induction false} FirstHitIs(line: string, f: Family, kind: Kind, index: nat, taken: seq<Hit>, from: nat,
                                      pos: nat)
    requires from <= pos && At(line, pos, KindMarker(f, kind, index))
    requires HitAt(line, f, kind, index, taken, pos).Some?
    requires forall p | from <= p < pos && At(line, p, KindMarker(f, kind, index)) ::
      HitAt(line, f, kind, index, taken, p) == None
    ensures FirstHit(line, f, kind, index, taken, from) == HitAt(line, f, kind, index, taken, pos)
    decreases pos - from
  {
    var first := FirstMarker(line, KindMarker(f, kind, index), from, pos);
    if first < pos {
      assert HitAt(line, f, kind, index, taken, first) == None;
      FirstHitIs(line, f, kind, index, taken, first + 1, pos);
      SearchGoesOn(line, f, kind, index, taken, from, first);
    }
  }

  /** A usable marker makes the search end there or before it. */
  lemma {:induction false} FirstHitBefore(line: string, f: Family, kind: Kind, index: nat, taken: seq<Hit>,
                                          from: nat, pos: nat)
    returns (p: nat)
    requires from <= pos && At(line, pos, KindMarker(f, kind, index)) && HitAt(line, f, kind, index, taken, pos).Some?
    ensures p <= pos && At(line, p, KindMarker(f, kind, index)) && HitAt(line, f, kind, index, taken, p).Some?
    ensures FirstHit(line, f, kind, index, taken, from) == HitAt(line, f, kind, index, taken, p)
    decreases pos - from
  {
    hide HitAt, FirstHit, KindMarker;
    MarkerNotEmpty(f, kind, index);
    var first := FirstMarker(line, KindMarker(f, kind, index), from, pos);
    if HitAt(line, f, kind, index, taken, first) == None {
      p := FirstHitBefore(line, f, kind, index, taken, first + 1, pos);
      SearchGoesOn(line, f, kind, index, taken, from, first);
    } else {
      p := first;
      SearchEnds(line, f, kind, index, taken, from, first);
    }
  }

  lemma MarkerNotEmpty(f: Family, kind: Kind, index: nat)
    ensures KindMarker(f, kind, index) != ""
  {
  }

  lemma SearchEnds(line: string, f: Family, kind: Kind, index: nat, taken: seq<Hit>, from: nat, first: nat)
    requires Find(line, KindMarker(f, kind, index), from) == Some(first)
    requires HitAt(line, f, kind, index, taken, first).Some?
    ensures FirstHit(line, f, kind, index, taken, from) == HitAt(line, f, kind, index, taken, first)
  {
  }

  lemma {:induction false} FirstHitNone(line: string, f: Family, kind: Kind, index: nat, taken: seq<Hit>, from: nat)
    requires forall p | from <= p && At(line, p, KindMarker(f, kind, index)) ::
      HitAt(line, f, kind, index, taken, p) == None
    ensures FirstHit(line, f, kind, index, taken, from) == None
    decreases |line| - from
  {
    var first := Find(line, KindMarker(f, kind, index), from);
    if first.Some? {
      FirstHitNone(line, f, kind, index, taken, first.value + 1);
    }
  }

  /** An index that no search finds has no update. */
  lemma {:induction false} NeverFound(line: string, f: Family, kind: Kind, index: nat, taken: seq<Hit>, i: nat)
    requires forall t: seq<Hit> :: FirstHit(line, f, kind, i, t, 0) == None
    requires forall h | h in taken :: h.index != i
    ensures forall h | h in HitsFrom(line, f, kind, index, taken) :: h.index != i
    decreases index
  {
    hide HitAt, Shadowed;
    if index > 0 {
      var hit := FirstHit(line, f, kind, index, taken, 0);
      FirstHitUsable(line, f, kind, index, taken, 0);
      HitsStep(line, f, kind, index, taken, hit);
      NeverFound(line, f, kind, index - 1, if hit.Some? then taken + [hit.value] else taken, i);
    }
  }
}
