/**
 Replies of bare numbers: `#Z0POWER` or `#G0TYPE` and one `Z<i><number>` segment for each index, in any
 order. An index and its number stand side by side, so some pairs look like another pair.
 */
module HifiNumbers {
  import opened Machine
  import opened Text
  import opened HifiQuoting
  import opened HifiBulk
  import opened HifiIndexed

  function NumberToken(f: Family, entry: (nat, int)): string { MarkerText(f, entry.0, "") + DecInt(entry.1) }

  /** The head of the reply and the printed segments. */
  function Pieces(list: seq<(nat, int)>, f: Family, keyword: string): (ts: seq<string>)
    ensures |ts| == |list| + 1
  {
    [MarkerText(f, 0, keyword)] + seq(|list|, j requires 0 <= j < |list| => NumberToken(f, list[j]))
  }

  function NumberReply(list: seq<(nat, int)>, f: Family, keyword: string): string { "#" + Join(Pieces(list, f,
                       keyword)) }

  function Pairs(hits: seq<Hit>): (r: seq<(nat, int)>)
    ensures |r| == |hits|
  {
    seq(|hits|, i requires 0 <= i < |hits| =>
      (hits[i].index, if hits[i].reading.Number? then hits[i].reading.value else 0))
  }

  /** The first digits of the number make a longer index of the family with those of the index. */
  ghost predicate LooksLonger(f: Family, entry: (nat, int)) {
    exists k | entry.0 < k <= f.maxIndex :: |Dec(k)| > |Dec(entry.0)| && Dec(k) <= Dec(entry.0) + DecInt(entry.1)
  }

  /** A list that prints the map, with indices of the family, none of which looks like another. */
  ghost predicate Printable(list: seq<(nat, int)>, m: map<nat, int>, f: Family) {
    Prints(list, m) && (forall k | k in m :: InRange(f, k))
  }

  // --- Where a marker can stand -----------------------------------------------------------

  lemma NumberIsToken(f: Family, index: nat, tail: string)
    requires Known(f) && f.prefix !in tail
    ensures Token(MarkerText(f, index, "") + tail, f.prefix)
  {
  }

  lemma DecIntChars(v: int, c: char)
    requires c != '-' && !IsDigit(c)
    ensures c !in DecInt(v)
  {
  }

  lemma PiecesAreTokens(list: seq<(nat, int)>, f: Family, keyword: string)
    requires Known(f) && Keyword(f, keyword)
    ensures Tokens(Pieces(list, f, keyword), f.prefix)
  {
    var ts := Pieces(list, f, keyword);
    forall j | 0 <= j < |ts| ensures Token(ts[j], f.prefix) {
      if j > 0 {
        DecIntChars(list[j - 1].1, f.prefix);
        NumberIsToken(f, list[j - 1].0, DecInt(list[j - 1].1));
      } else {
        NumberIsToken(f, 0, keyword);
        assert MarkerText(f, 0, "") + keyword == MarkerText(f, 0, keyword);
      }
    }
  }

  /** Where segment `j` stands in the line. */
  ghost function Slot(list: seq<(nat, int)>, f: Family, keyword: string, j: nat): Hit
    requires j < |list|
  {
    var start := 1 + |Join(Pieces(list, f, keyword)[..j + 1])|;
    Hit(list[j].0, Number(list[j].1), start, start + |NumberToken(f, list[j])|)
  }

  /** What is read there. */
  ghost function ReadSlot(list: seq<(nat, int)>, f: Family, keyword: string, j: nat): Hit
    requires j < |list|
  {
    Slot(list, f, keyword, j).(reading := Number(Wrap32(list[j].1)))
  }

  lemma SlotsInOrder(list: seq<(nat, int)>, f: Family, keyword: string, i: nat, j: nat)
    requires i < j < |list|
    ensures Slot(list, f, keyword, i).end <= Slot(list, f, keyword, j).start
  {
    hide Join, Pieces, NumberToken;
    PiecesApart(Pieces(list, f, keyword), i + 1, j + 1);
    SlotPiece(list, f, keyword, i);
  }

  lemma SlotPiece(list: seq<(nat, int)>, f: Family, keyword: string, i: nat)
    requires i < |list|
    ensures Pieces(list, f, keyword)[i + 1] == NumberToken(f, list[i])
  {
  }

  lemma SlotsApart(list: seq<(nat, int)>, f: Family, keyword: string, i: nat, j: nat)
    requires i < |list| && j < |list| && i != j
    ensures var a, b := Slot(list, f, keyword, i), Slot(list, f, keyword, j); a.end <= b.start || b.end <= a.start
  {
    if i < j { SlotsInOrder(list, f, keyword, i, j); } else { SlotsInOrder(list, f, keyword, j, i); }
  }

  lemma SlotText(list: seq<(nat, int)>, f: Family, keyword: string, j: nat)
    requires j < |list|
    ensures var line, slot := NumberReply(list, f, keyword), Slot(list, f, keyword, j);
            slot.start <= |line| &&
            line[slot.start..] == MarkerText(f, list[j].0, "") +
                                  (DecInt(list[j].1) + Join(Pieces(list, f, keyword)[j + 2..]))
  {
    var ts := Pieces(list, f, keyword);
    var before, rest := Join(ts[..j + 1]), Join(ts[j + 2..]);
    JoinAround(ts, j + 1);
    var line := NumberReply(list, f, keyword);
    Joins("#", before, ts[j + 1] + rest);
    assert line == ("#" + before) + (ts[j + 1] + rest);
    assert line[1 + |before|..] == ts[j + 1] + rest;
    Joins(MarkerText(f, list[j].0, ""), DecInt(list[j].1), rest);
  }

  /** What follows a number is no digit. */
  lemma RestStarts(list: seq<(nat, int)>, f: Family, keyword: string, j: nat)
    requires Known(f) && Keyword(f, keyword) && j < |list|
    ensures var rest := Join(Pieces(list, f, keyword)[j + 2..]); rest == "" || rest[0] == f.prefix
  {
    PiecesAreTokens(list, f, keyword);
    JoinHead(Pieces(list, f, keyword)[j + 2..], f.prefix);
  }

  /** A marker begins a piece of the reply. */
  lemma MarkerPlace(list: seq<(nat, int)>, f: Family, keyword: string, k: nat, p: nat) returns (q: nat)
    requires Known(f) && Keyword(f, keyword) && At(NumberReply(list, f, keyword), p, MarkerText(f, k, ""))
    ensures q <= |list| && MarkerText(f, k, "") <= Pieces(list, f, keyword)[q]
    ensures p == 1 + |Join(Pieces(list, f, keyword)[..q])|
  {
    var ts, pat, line := Pieces(list, f, keyword), MarkerText(f, k, ""), NumberReply(list, f, keyword);
    PiecesAreTokens(list, f, keyword);
    assert line[p] == line[p..p + |pat|][0] == f.prefix;
    assert line[p] == Join(ts)[p - 1];
    q := TokenStartAt(ts, f.prefix, p - 1);
    JoinAround(ts, q);
    var before, rest := Join(ts[..q]), Join(ts[q + 1..]);
    JoinHead(ts[q + 1..], f.prefix);
    Joins("#", before, ts[q] + rest);
    assert line == ("#" + before) + (ts[q] + rest);
    AtShift("#" + before, ts[q] + rest, p, pat);
    assert pat + "" == pat;
    NumberIsToken(f, k, "");
    TokenMatch(ts[q], rest, f.prefix, pat, 0);
  }

  lemma {:induction false} TokenStartAt(ts: seq<string>, d: char, i: nat) returns (k: nat)
    requires Tokens(ts, d) && i < |Join(ts)| && Join(ts)[i] == d
    ensures k < |ts| && i == |Join(ts[..k])|
  {
    if i < |ts[0]| {
      k := 0;
    } else {
      k := TokenStartAt(ts[1..], d, i - |ts[0]|);
      JoinPrefix(ts, k);
      k := k + 1;
    }
  }

  // --- Which pieces a marker can begin ----------------------------------------------------

  lemma NoLeadingZero(k: nat)
    requires k > 0
    ensures Dec(k)[0] != '0'
  {
  }

  lemma HeadBegins(f: Family, keyword: string, k: nat)
    requires k > 0
    ensures !(MarkerText(f, k, "") <= MarkerText(f, 0, keyword))
  {
    NoLeadingZero(k);
    var m, h := MarkerText(f, k, ""), MarkerText(f, 0, keyword);
    assert m[1] == Dec(k)[0] && h[1] == '0';
  }

  lemma TokenBegins(f: Family, k: nat, entry: (nat, int))
    requires MarkerText(f, k, "") <= NumberToken(f, entry)
    ensures Dec(k) <= Dec(entry.0) + DecInt(entry.1)
    ensures |Dec(k)| == |Dec(entry.0)| ==> k == entry.0
    ensures |Dec(k)| <= |Dec(entry.0)| ==> Dec(k) <= Dec(entry.0)
  {
    var m, t, both := MarkerText(f, k, ""), NumberToken(f, entry), Dec(entry.0) + DecInt(entry.1);
    assert m == [f.prefix] + Dec(k) && t == [f.prefix] + both;
    assert both[..|Dec(k)|] == t[..|m|][1..] == Dec(k);
    if |Dec(k)| <= |Dec(entry.0)| {
      assert Dec(entry.0)[..|Dec(k)|] == both[..|Dec(k)|];
      if |Dec(k)| == |Dec(entry.0)| {
        assert Dec(entry.0) == Dec(entry.0)[..|Dec(k)|];
        SameDec(k, entry.0);
      }
    }
  }

  lemma {:induction false} LongerIsGreater(i: nat, k: nat)
    requires |Dec(k)| > |Dec(i)|
    ensures k > i
  {
    if k >= 10 && i >= 10 { LongerIsGreater(i / 10, k / 10); }
  }

  // --- Searching one index ----------------------------------------------------------------

  /** At a segment of a longer index, or of a pair that looks like one, nothing shorter is read. */
  lemma ShadowedAt(list: seq<(nat, int)>, f: Family, keyword: string, j: nat, i: nat, k: nat, taken: seq<Hit>)
    requires Known(f) && Keyword(f, keyword) && j < |list| && i < k <= f.maxIndex && |Dec(k)| > |Dec(i)|
    requires Dec(k) <= Dec(list[j].0) + DecInt(list[j].1)
    ensures HitAt(NumberReply(list, f, keyword), f, Numbers, i, taken, Slot(list, f, keyword, j).start) == None
  {
    var line, pos := NumberReply(list, f, keyword), Slot(list, f, keyword, j).start;
    var both, rest := Dec(list[j].0) + DecInt(list[j].1), Join(Pieces(list, f, keyword)[j + 2..]);
    SlotText(list, f, keyword, j);
    Spelled(f, list[j], rest);
    BeginsAt(line, pos, f, k, both, rest);
    ShadowedIsNone(line, f, Numbers, i, taken, pos, k);
  }

  lemma Spelled(f: Family, entry: (nat, int), rest: string)
    ensures MarkerText(f, entry.0, "") + (DecInt(entry.1) + rest) ==
            [f.prefix] + ((Dec(entry.0) + DecInt(entry.1)) + rest)
  {
  }

  lemma BeginsAt(line: string, pos: nat, f: Family, k: nat, both: string, rest: string)
    requires pos <= |line| && line[pos..] == [f.prefix] + (both + rest) && Dec(k) <= both
    ensures At(line, pos, MarkerText(f, k, ""))
  {
    var m := MarkerText(f, k, "");
    assert m == [f.prefix] + Dec(k);
    assert (both + rest)[..|Dec(k)|] == both[..|Dec(k)|] == Dec(k);
    assert line[pos..pos + |m|] == line[pos..][..|m|];
  }

  lemma AloneIfClear(list: seq<(nat, int)>, f: Family, keyword: string, j: nat)
    requires Known(f) && Keyword(f, keyword) && j < |list| && !LooksLonger(f, list[j])
    ensures !Shadowed(NumberReply(list, f, keyword), f, list[j].0, Slot(list, f, keyword, j).start)
  {
    var line, i, pos := NumberReply(list, f, keyword), list[j].0, Slot(list, f, keyword, j).start;
    forall k | i < k <= f.maxIndex && |Dec(k)| > |Dec(i)| ensures !At(line, pos, MarkerText(f, k, "")) {
      if At(line, pos, MarkerText(f, k, "")) {
        var q := MarkerPlace(list, f, keyword, k, pos);
        SamePlace(list, f, keyword, q, j + 1);
        TokenBegins(f, k, list[j]);
      }
    }
  }

  /** Pieces stand at different places. */
  lemma SamePlace(list: seq<(nat, int)>, f: Family, keyword: string, q: nat, r: nat)
    requires q <= |list| && r <= |list| && |Join(Pieces(list, f, keyword)[..q])| == |Join(Pieces(list, f, keyword)[..r])|
    ensures q == r
  {
    var ts := Pieces(list, f, keyword);
    if q < r { PiecesApart(ts, q, r); }
    if r < q { PiecesApart(ts, r, q); }
  }

  lemma SlotReads(list: seq<(nat, int)>, f: Family, keyword: string, j: nat)
    requires Known(f) && Keyword(f, keyword) && j < |list|
    ensures var line, slot := NumberReply(list, f, keyword), Slot(list, f, keyword, j);
            var marker := MarkerText(f, list[j].0, "");
            && At(line, slot.start, marker)
            && ReadingAt(line, Numbers, slot.start + |marker|) == Some((Number(Wrap32(list[j].1)), slot.end))
  {
    hide ReadingAt, Join;
    var line, slot := NumberReply(list, f, keyword), Slot(list, f, keyword, j);
    var rest := Join(Pieces(list, f, keyword)[j + 2..]);
    SlotText(list, f, keyword, j);
    RestStarts(list, f, keyword, j);
    SliceAfter(line, slot.start, MarkerText(f, list[j].0, ""), DecInt(list[j].1) + rest);
    ReadsNumber(line, slot.start + |MarkerText(f, list[j].0, "")|, list[j].1, rest);
  }

  /** A segment that looks like no other reads as its index and its number, wrapped to 32 bits. */
  lemma SlotIsHit(list: seq<(nat, int)>, f: Family, keyword: string, taken: seq<Hit>, j: nat)
    requires Known(f) && Keyword(f, keyword) && j < |list| && !LooksLonger(f, list[j])
    requires !Overlaps(taken, Slot(list, f, keyword, j).start, Slot(list, f, keyword, j).end)
    ensures HitAt(NumberReply(list, f, keyword), f, Numbers, list[j].0, taken, Slot(list, f, keyword, j).start) ==
            Some(ReadSlot(list, f, keyword, j))
    ensures At(NumberReply(list, f, keyword), Slot(list, f, keyword, j).start, KindMarker(f, Numbers, list[j].0))
  {
    hide ReadingAt, HitAt, Shadowed, Join;
    var slot := Slot(list, f, keyword, j);
    SlotReads(list, f, keyword, j);
    AloneIfClear(list, f, keyword, j);
    HitIs(NumberReply(list, f, keyword), f, Numbers, list[j].0, taken, slot.start, Number(Wrap32(list[j].1)), slot.end);
  }

  lemma ReadsNumber(line: string, start: nat, v: int, rest: string)
    requires start <= |line| && line[start..] == DecInt(v) + rest && (rest == "" || !IsDigit(rest[0]))
    ensures ReadingAt(line, Numbers, start) == Some((Number(Wrap32(v)), start + |DecInt(v)|))
  {
    SuffixRoundTrip(line, start, v, rest);
  }

  /** Elsewhere a marker of the index is no more than the beginning of a longer one. */
  lemma NotElsewhere(list: seq<(nat, int)>, f: Family, keyword: string, taken: seq<Hit>, k: nat, p: nat)
    requires Known(f) && Keyword(f, keyword) && k > 0 && (forall e | e in list :: InRange(f, e.0))
    requires At(NumberReply(list, f, keyword), p, KindMarker(f, Numbers, k))
    requires forall e | e in list && |Dec(e.0)| < |Dec(k)| :: !LooksLonger(f, e)
    requires k <= f.maxIndex
    ensures HitAt(NumberReply(list, f, keyword), f, Numbers, k, taken, p) == None
            || exists j | 0 <= j < |list| :: list[j].0 == k && p == Slot(list, f, keyword, j).start
  {
    var q := MarkerPlace(list, f, keyword, k, p);
    if q == 0 {
      HeadBegins(f, keyword, k);
      assert false;
    } else {
      var e := list[q - 1];
      assert e in list;
      TokenBegins(f, k, e);
      if |Dec(k)| < |Dec(e.0)| {
        LongerIsGreater(k, e.0);
        assert (Dec(e.0) + DecInt(e.1))[..|Dec(e.0)|] == Dec(e.0);
        ShadowedAt(list, f, keyword, q - 1, k, e.0, taken);
      } else if |Dec(k)| > |Dec(e.0)| {
        LongerIsGreater(e.0, k);
        assert LooksLonger(f, e);
      } else {
        assert list[q - 1].0 == k && p == Slot(list, f, keyword, q - 1).start;
      }
    }
  }

  // --- The whole reply --------------------------------------------------------------------

  /** What was taken so far: segments of greater indices. */
  ghost predicate TakenOk(list: seq<(nat, int)>, f: Family, keyword: string, taken: seq<Hit>, k: nat) {
    forall h | h in taken :: h.index > k && exists i | 0 <= i < |list| ::
      h == ReadSlot(list, f, keyword, i)
  }

  lemma SlotIsFree(list: seq<(nat, int)>, f: Family, keyword: string, taken: seq<Hit>, k: nat, j: nat)
    requires TakenOk(list, f, keyword, taken, k) && j < |list| && list[j].0 == k
    ensures !Overlaps(taken, Slot(list, f, keyword, j).start, Slot(list, f, keyword, j).end)
  {
    var slot := Slot(list, f, keyword, j);
    forall i | 0 <= i < |taken| ensures taken[i].end <= slot.start || slot.end <= taken[i].start {
      var h := taken[i];
      assert h in taken;
      var n :| 0 <= n < |list| && h == ReadSlot(list, f, keyword, n);
      SlotsApart(list, f, keyword, n, j);
    }
  }

  /** The numbers as they are read. */
  function Wrapped(m: map<nat, int>): map<nat, int> { map k | k in m :: Wrap32(m[k]) }

  ghost predicate NoneLooksLonger(list: seq<(nat, int)>, f: Family) { forall e | e in list :: !LooksLonger(f, e) }

  lemma SearchPrinted(list: seq<(nat, int)>, m: map<nat, int>, f: Family, keyword: string, taken: seq<Hit>, k: nat,
                      j: nat)
    requires Known(f) && Keyword(f, keyword) && Printable(list, m, f) && NoneLooksLonger(list, f)
    requires TakenOk(list, f, keyword, taken, k) && 0 < k <= f.maxIndex && j <= |list|
    requires if j < |list| then list[j].0 == k else k !in m
    ensures FirstHit(NumberReply(list, f, keyword), f, Numbers, k, taken, 0) ==
            if j < |list| then Some(ReadSlot(list, f, keyword, j)) else None
  {
    var line := NumberReply(list, f, keyword);
    forall e | e in list ensures InRange(f, e.0) && e.0 in m { }
    if j < |list| {
      var pos := Slot(list, f, keyword, j).start;
      SlotIsFree(list, f, keyword, taken, k, j);
      SlotIsHit(list, f, keyword, taken, j);
      forall p | 0 <= p < pos && At(line, p, KindMarker(f, Numbers, k))
        ensures HitAt(line, f, Numbers, k, taken, p) == None
      {
        NotElsewhere(list, f, keyword, taken, k, p);
      }
      FirstHitIs(line, f, Numbers, k, taken, 0, pos);
    } else {
      forall p | 0 <= p && At(line, p, KindMarker(f, Numbers, k)) ensures HitAt(line, f, Numbers, k, taken, p) == None {
        NotElsewhere(list, f, keyword, taken, k, p);
      }
      FirstHitNone(line, f, Numbers, k, taken, 0);
    }
  }

  lemma TakenMore(list: seq<(nat, int)>, f: Family, keyword: string, taken: seq<Hit>, k: nat, j: nat)
    requires TakenOk(list, f, keyword, taken, k) && k > 0 && j < |list| && list[j].0 == k
    ensures TakenOk(list, f, keyword, taken + [ReadSlot(list, f, keyword, j)], k - 1)
    ensures Pairs(taken + [ReadSlot(list, f, keyword, j)]) == Pairs(taken) + [(k, Wrap32(list[j].1))]
  {
  }

  lemma TakeNext(list: seq<(nat, int)>, m: map<nat, int>, f: Family, keyword: string, taken: seq<Hit>, k: nat)
    returns (more: seq<Hit>)
    requires Known(f) && Keyword(f, keyword) && Printable(list, m, f) && NoneLooksLonger(list, f)
    requires TakenOk(list, f, keyword, taken, k) && 0 < k <= f.maxIndex
    ensures TakenOk(list, f, keyword, more, k - 1)
    ensures HitsFrom(NumberReply(list, f, keyword), f, Numbers, k, taken) ==
            HitsFrom(NumberReply(list, f, keyword), f, Numbers, k - 1, more)
    ensures Pairs(more) == Pairs(taken) + if k in m then [(k, Wrap32(m[k]))] else []
  {
    if k in m {
      var j :| 0 <= j < |list| && list[j].0 == k;
      var hit := ReadSlot(list, f, keyword, j);
      SearchPrinted(list, m, f, keyword, taken, k, j);
      HitsStep(NumberReply(list, f, keyword), f, Numbers, k, taken, Some(hit));
      more := taken + [hit];
      TakenMore(list, f, keyword, taken, k, j);
    } else {
      SearchPrinted(list, m, f, keyword, taken, k, |list|);
      HitsStep(NumberReply(list, f, keyword), f, Numbers, k, taken, None);
      more := taken;
    }
  }

  lemma {:induction false} NumbersFrom(list: seq<(nat, int)>, m: map<nat, int>, f: Family, keyword: string,
                                       taken: seq<Hit>, k: nat)
    requires Known(f) && Keyword(f, keyword) && Printable(list, m, f) && NoneLooksLonger(list, f)
    requires TakenOk(list, f, keyword, taken, k) && k <= f.maxIndex
    ensures Pairs(HitsFrom(NumberReply(list, f, keyword), f, Numbers, k, taken)) == Pairs(taken) + Expected(Wrapped(m), k)
    decreases k
  {
    if k > 0 {
      var more := TakeNext(list, m, f, keyword, taken, k);
      NumbersFrom(list, m, f, keyword, more, k - 1);
      Joins(Pairs(taken), if k in m then [(k, Wrap32(m[k]))] else [], Expected(Wrapped(m), k - 1));
    }
  }

  /** Without such pairs every number comes back, wrapped to 32 bits, highest index first. */
  lemma NumbersRoundTrip(list: seq<(nat, int)>, m: map<nat, int>, f: Family, keyword: string)
    requires Known(f) && Keyword(f, keyword) && Printable(list, m, f) && NoneLooksLonger(list, f)
    ensures Pairs(HitsFrom(NumberReply(list, f, keyword), f, Numbers, f.maxIndex, [])) == Expected(Wrapped(m), f.maxIndex)
  {
    NumbersFrom(list, m, f, keyword, [], f.maxIndex);
    assert Pairs([]) == [];
  }

  // --- Pairs that look like others --------------------------------------------------------

  lemma FewDigits(k: nat)
    requires k < 100
    ensures |Dec(k)| == if k < 10 then 1 else 2
  {
  }

  /** The index of such a pair is found nowhere. */
  lemma LongerIsLost(list: seq<(nat, int)>, m: map<nat, int>, f: Family, keyword: string, j: nat, taken: seq<Hit>,
                     p: nat)
    requires Known(f) && Keyword(f, keyword) && Printable(list, m, f) && f.maxIndex < 100
    requires j < |list| && LooksLonger(f, list[j])
    requires At(NumberReply(list, f, keyword), p, KindMarker(f, Numbers, list[j].0))
    ensures HitAt(NumberReply(list, f, keyword), f, Numbers, list[j].0, taken, p) == None
  {
    hide HitAt, ReadingAt, Join;
    var i := list[j].0;
    var k :| i < k <= f.maxIndex && |Dec(k)| > |Dec(i)| && Dec(k) <= Dec(i) + DecInt(list[j].1);
    FewDigits(i);
    FewDigits(k);
    forall e | e in list ensures InRange(f, e.0) && |Dec(e.0)| >= 1 { }
    NotElsewhere(list, f, keyword, taken, i, p);
    if HitAt(NumberReply(list, f, keyword), f, Numbers, i, taken, p) != None {
      var n :| 0 <= n < |list| && list[n].0 == i && p == Slot(list, f, keyword, n).start;
      ShadowedAt(list, f, keyword, n, i, k, taken);
    }
  }

  lemma LongerHasNoUpdate(list: seq<(nat, int)>, m: map<nat, int>, f: Family, keyword: string, j: nat)
    requires Known(f) && Keyword(f, keyword) && Printable(list, m, f) && f.maxIndex < 100
    requires j < |list| && LooksLonger(f, list[j])
    ensures forall h | h in HitsFrom(NumberReply(list, f, keyword), f, Numbers, f.maxIndex, []) :: h.index != list[j].0
  {
    hide HitAt, ReadingAt, Join;
    var line, i := NumberReply(list, f, keyword), list[j].0;
    forall t: seq<Hit> ensures FirstHit(line, f, Numbers, i, t, 0) == None {
      forall p | 0 <= p && At(line, p, KindMarker(f, Numbers, i)) ensures HitAt(line, f, Numbers, i, t, p) == None {
        LongerIsLost(list, m, f, keyword, j, t, p);
      }
      FirstHitNone(line, f, Numbers, i, t, 0);
    }
    NeverFound(line, f, Numbers, f.maxIndex, [], i);
  }

  lemma {:induction false} WrappedSame(m: map<nat, int>, k: nat)
    requires forall i | i in m && 1 <= i <= k :: Int32(m[i])
    ensures Expected(Wrapped(m), k) == Expected(m, k)
  {
    if k > 0 { WrappedSame(m, k - 1); }
  }

  ghost predicate AllFit(m: map<nat, int>) { forall k | k in m :: Int32(m[k]) }

  /** A number that does not fit 32 bits does not come back. */
  lemma WrappedDiffers(m: map<nat, int>, k: nat, i: nat)
    requires 1 <= i <= k && i in m && !Int32(m[i])
    ensures Expected(Wrapped(m), k) != Expected(m, k)
  {
    ExpectedIsMap(Wrapped(m), k);
    ExpectedIsMap(m, k);
    assert (i, m[i]) in Expected(m, k) && (i, m[i]) !in Expected(Wrapped(m), k);
  }

  lemma LostIsMissing(hits: seq<Hit>, m: map<nat, int>, k: nat, i: nat)
    requires 1 <= i <= k && i in m && forall h | h in hits :: h.index != i
    ensures Pairs(hits) != Expected(m, k)
  {
    ExpectedIsMap(m, k);
    assert (i, m[i]) in Expected(m, k);
    forall n | 0 <= n < |hits| ensures Pairs(hits)[n].0 != i { assert hits[n] in hits; }
  }

  /**
   A reply of bare numbers, in any order, gives back the printed map if and only if no pair looks like that
   of a longer index and every number fits 32 bits.
   */
  lemma NumbersRoundTripIff(list: seq<(nat, int)>, m: map<nat, int>, f: Family, keyword: string)
    requires Known(f) && Keyword(f, keyword) && Printable(list, m, f) && f.maxIndex < 100
    ensures Pairs(HitsFrom(NumberReply(list, f, keyword), f, Numbers, f.maxIndex, [])) == Expected(m, f.maxIndex)
            <==> NoneLooksLonger(list, f) && AllFit(m)
  {
    hide HitAt, ReadingAt, Join, HitsFrom;
    if NoneLooksLonger(list, f) {
      NumbersRoundTrip(list, m, f, keyword);
      if AllFit(m) {
        WrappedSame(m, f.maxIndex);
      } else {
        var i :| i in m && !Int32(m[i]);
        WrappedDiffers(m, f.maxIndex, i);
      }
    } else {
      var e :| e in list && LooksLonger(f, e);
      var j :| 0 <= j < |list| && list[j] == e;
      LongerHasNoUpdate(list, m, f, keyword, j);
      LostIsMissing(HitsFrom(NumberReply(list, f, keyword), f, Numbers, f.maxIndex, []), m, f.maxIndex, e.0);
    }
  }

  /** With sixteen zones these are the pairs of zone 1 and a number that begins with 0 to 6; with eight, none. */
  lemma LooksLongerIff(f: Family, entry: (nat, int))
    requires InRange(f, entry.0)
    ensures f.maxIndex == 16 ==> (LooksLonger(f, entry) <==> entry.0 == 1 && '0' <= DecInt(entry.1)[0] <= '6')
    ensures f.maxIndex < 10 ==> !LooksLonger(f, entry)
  {
    var i, text := entry.0, DecInt(entry.1);
    if f.maxIndex < 10 {
      forall k | i < k <= f.maxIndex ensures |Dec(k)| == |Dec(i)| {
        FewDigits(i);
        FewDigits(k);
      }
    } else if f.maxIndex == 16 {
      FewDigits(i);
      forall k | i < k <= 16 ensures |Dec(k)| > |Dec(i)| <==> i < 10 <= k { FewDigits(k); }
      ZoneLonger(f, entry);
    }
  }

  lemma Teens(k: nat)
    requires 10 <= k <= 16
    ensures Dec(k) == ['1', DigitChar(k - 10)]
  {
  }

  lemma DecOne(i: nat)
    requires i < 10
    ensures Dec(i) == [DigitChar(i)]
  {
  }

  lemma ZoneLonger(f: Family, entry: (nat, int))
    requires InRange(f, entry.0) && f.maxIndex == 16
    requires forall k | entry.0 < k <= 16 :: |Dec(k)| > |Dec(entry.0)| <==> entry.0 < 10 <= k
    ensures LooksLonger(f, entry) <==> entry.0 == 1 && '0' <= DecInt(entry.1)[0] <= '6'
  {
    var i, text := entry.0, DecInt(entry.1);
    if LooksLonger(f, entry) {
      var k :| i < k <= f.maxIndex && |Dec(k)| > |Dec(i)| && Dec(k) <= Dec(i) + text;
      Teens(k);
      DecOne(i);
      assert (Dec(i) + text)[0] == Dec(k)[0] && (Dec(i) + text)[1] == Dec(k)[1];
    }
    if i == 1 && '0' <= text[0] <= '6' {
      var k := 10 + DigitValue(text[0]);
      Teens(k);
      DecOne(1);
      assert (Dec(i) + text)[..2] == Dec(k);
      assert Dec(k) <= Dec(i) + text && |Dec(k)| > |Dec(i)|;
    }
  }
}
