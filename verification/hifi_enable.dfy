/** ENABLE replies: `#Z0ENABLE` and one `Z<i>ENABLE<0 or 1>` segment for each zone, in any order. */
module HifiEnable {
  import opened Text
  import opened HifiBulk
  import opened HifiIndexed

  function FlagText(on: bool): string { if on then "1" else "0" }

  function FlagToken(f: Family, entry: (nat, bool)): string {
    MarkerText(f, entry.0, ENABLE) + FlagText(entry.1)
  }

  /** The head of the reply and the printed segments. */
  function Pieces(list: seq<(nat, bool)>, f: Family): (ts: seq<string>)
    ensures |ts| == |list| + 1
  {
    [MarkerText(f, 0, ENABLE)] + seq(|list|, j requires 0 <= j < |list| => FlagToken(f, list[j]))
  }

  function FlagReply(list: seq<(nat, bool)>, f: Family): string { "#" + Join(Pieces(list, f)) }

  function Pairs(hits: seq<Hit>): (r: seq<(nat, bool)>)
    ensures |r| == |hits|
  {
    seq(|hits|, i requires 0 <= i < |hits| => (hits[i].index, hits[i].reading == Flag(true)))
  }

  // --- The pieces of a reply --------------------------------------------------------------

  lemma PiecesAreTokens(list: seq<(nat, bool)>, f: Family)
    requires Known(f)
    ensures Tokens(Pieces(list, f), f.prefix)
  {
    var ts := Pieces(list, f);
    forall j | 0 <= j < |ts| ensures Token(ts[j], f.prefix) {
      if j > 0 {
        MarkerIsToken(f, list[j - 1].0, FlagText(list[j - 1].1));
      } else {
        MarkerIsToken(f, 0, "");
        assert MarkerText(f, 0, ENABLE) + "" == MarkerText(f, 0, ENABLE);
      }
    }
  }

  lemma MarkerIsToken(f: Family, index: nat, tail: string)
    requires Known(f) && f.prefix !in tail
    ensures Token(MarkerText(f, index, ENABLE) + tail, f.prefix)
  {
  }

  /** A marker begins a segment only when the indices are the same. */
  lemma MarkerBegins(f: Family, k: nat, i: nat, tail: string)
    ensures MarkerText(f, k, ENABLE) <= MarkerText(f, i, ENABLE) + tail <==> i == k
  {
    var t, m := MarkerText(f, i, ENABLE) + tail, MarkerText(f, k, ENABLE);
    if m <= t {
      DigitsOf(t, f, i, tail);
      assert t == m + t[|m|..];
      DigitsOf(t, f, k, t[|m|..]);
      ValueDec(i);
      ValueDec(k);
    }
  }

  lemma DigitsOf(t: string, f: Family, i: nat, tail: string)
    requires t == MarkerText(f, i, ENABLE) + tail
    ensures |t| > 1 && t[1..DigitsEnd(t, 1)] == Dec(i)
  {
    var rest := ENABLE + tail;
    MarkerPieces([f.prefix], Dec(i), ENABLE, tail);
    assert t[0..] == t;
    SliceAfter(t, 0, [f.prefix], Dec(i) + rest);
    assert rest[0] == 'E';
    DigitsInLine(t, 1, Dec(i), rest);
  }

  /** Where segment `j` stands in the line. */
  ghost function Slot(list: seq<(nat, bool)>, f: Family, j: nat): Hit
    requires j < |list|
  {
    var start := 1 + |Join(Pieces(list, f)[..j + 1])|;
    Hit(list[j].0, Flag(list[j].1), start, start + |FlagToken(f, list[j])|)
  }

  lemma SlotsApart(list: seq<(nat, bool)>, f: Family, i: nat, j: nat)
    requires i < |list| && j < |list| && i != j
    ensures Slot(list, f, i).end <= Slot(list, f, j).start || Slot(list, f, j).end <= Slot(list, f, i).start
  {
    if i < j { PiecesApart(Pieces(list, f), i + 1, j + 1); } else { PiecesApart(Pieces(list, f), j + 1, i + 1); }
  }

  lemma SlotText(list: seq<(nat, bool)>, f: Family, j: nat)
    requires j < |list|
    ensures var line, slot := FlagReply(list, f), Slot(list, f, j);
            slot.start <= |line| &&
            line[slot.start..] == MarkerText(f, list[j].0, ENABLE) +
                                  (FlagText(list[j].1) + Join(Pieces(list, f)[j + 2..]))
  {
    var ts := Pieces(list, f);
    var before, rest := Join(ts[..j + 1]), Join(ts[j + 2..]);
    JoinAround(ts, j + 1);
    var line := FlagReply(list, f);
    Joins("#", before, ts[j + 1] + rest);
    assert line == ("#" + before) + (ts[j + 1] + rest);
    assert line[1 + |before|..] == ts[j + 1] + rest;
    Joins(MarkerText(f, list[j].0, ENABLE), FlagText(list[j].1), rest);
  }

  // --- Searching one index ----------------------------------------------------------------

  lemma FindPiece(list: seq<(nat, bool)>, f: Family, k: nat)
    requires Known(f)
    ensures Find(FlagReply(list, f), KindMarker(f, Flags, k), 0) ==
            match FirstWith(Pieces(list, f), KindMarker(f, Flags, k))
            case None => None
            case Some(p) => Some(1 + |Join(Pieces(list, f)[..p])|)
  {
    var ts, pat := Pieces(list, f), KindMarker(f, Flags, k);
    PiecesAreTokens(list, f);
    assert pat + "" == pat;
    MarkerIsToken(f, k, "");
    FindInTokens(ts, f.prefix, pat);
    FindBehindHash(Join(ts), pat);
  }

  lemma FirstPiece(list: seq<(nat, bool)>, f: Family, k: nat, j: nat)
    requires k > 0 && j <= |list| && (j < |list| ==> list[j].0 == k)
    requires forall i | 0 <= i < j :: list[i].0 != k
    ensures FirstWith(Pieces(list, f), KindMarker(f, Flags, k)) == if j < |list| then Some(j + 1) else None
  {
    var ts, pat := Pieces(list, f), KindMarker(f, Flags, k);
    forall p | 0 <= p < |ts| ensures pat <= ts[p] <==> p > 0 && list[p - 1].0 == k {
      PieceBegins(list, f, k, p);
    }
    if j < |list| {
      FirstWithIs(ts, pat, j + 1);
    } else {
      FirstWithNone(ts, pat);
    }
  }

  /** Which piece of the reply carries index `k`. */
  lemma FindIndex(list: seq<(nat, bool)>, f: Family, k: nat, j: nat)
    requires Known(f) && k > 0 && j <= |list| && (j < |list| ==> list[j].0 == k)
    requires forall i | 0 <= i < j :: list[i].0 != k
    ensures Find(FlagReply(list, f), KindMarker(f, Flags, k), 0) ==
            if j < |list| then Some(Slot(list, f, j).start) else None
  {
    FindPiece(list, f, k);
    FirstPiece(list, f, k, j);
  }

  lemma PieceBegins(list: seq<(nat, bool)>, f: Family, k: nat, p: nat)
    requires k > 0 && p < |Pieces(list, f)|
    ensures KindMarker(f, Flags, k) <= Pieces(list, f)[p] <==> p > 0 && list[p - 1].0 == k
  {
    if p > 0 {
      MarkerBegins(f, k, list[p - 1].0, FlagText(list[p - 1].1));
    } else {
      MarkerBegins(f, k, 0, "");
      assert MarkerText(f, 0, ENABLE) + "" == MarkerText(f, 0, ENABLE);
    }
  }

  lemma FindBehindHash(text: string, pat: string)
    requires pat != "" && pat[0] != '#'
    ensures Find("#" + text, pat, 0) == Shift(1, Find(text, pat, 0))
  {
    var line := "#" + text;
    assert !At(line, 0, pat) by {
      if |pat| <= |line| { assert line[0..|pat|][0] == '#'; }
    }
    FindPastPrefix("#", text, pat, 0);
  }

  /** A full marker is never shadowed by a longer index: the keyword follows the digits. */
  lemma NotShadowed(line: string, pos: nat, f: Family, k: nat, rest: string)
    requires pos <= |line| && line[pos..] == MarkerText(f, k, ENABLE) + rest
    ensures !Shadowed(line, f, k, pos)
  {
    var here := 1 + |Dec(k)|;
    assert line[pos + here] == line[pos..][here] == 'E';
    forall longer | k < longer <= f.maxIndex && |Dec(longer)| > |Dec(k)|
      ensures !At(line, pos, MarkerText(f, longer, ""))
    {
      var m := MarkerText(f, longer, "");
      assert m[here] == Dec(longer)[|Dec(k)|];
      assert pos + |m| <= |line| ==> line[pos..pos + |m|][here] == line[pos + here];
    }
  }

  /** What was taken so far: segments of other indices. */
  ghost predicate TakenOk(list: seq<(nat, bool)>, f: Family, taken: seq<Hit>, k: nat) {
    forall h | h in taken :: h.index > k && exists i | 0 <= i < |list| :: h == Slot(list, f, i)
  }

  lemma SlotIsFree(list: seq<(nat, bool)>, f: Family, taken: seq<Hit>, k: nat, j: nat)
    requires TakenOk(list, f, taken, k) && j < |list| && list[j].0 == k
    ensures !Overlaps(taken, Slot(list, f, j).start, Slot(list, f, j).end)
  {
    forall i | 0 <= i < |taken|
      ensures taken[i].end <= Slot(list, f, j).start || Slot(list, f, j).end <= taken[i].start
    {
      var h := taken[i];
      assert h in taken;
      var n :| 0 <= n < |list| && h == Slot(list, f, n);
      SlotsApart(list, f, n, j);
    }
  }

  lemma SlotIsHit(list: seq<(nat, bool)>, f: Family, taken: seq<Hit>, k: nat, j: nat)
    requires TakenOk(list, f, taken, k) && j < |list| && list[j].0 == k
    ensures HitAt(FlagReply(list, f), f, Flags, k, taken, Slot(list, f, j).start) == Some(Slot(list, f, j))
  {
    var line, slot := FlagReply(list, f), Slot(list, f, j);
    var rest := Join(Pieces(list, f)[j + 2..]);
    SlotText(list, f, j);
    NotShadowed(line, slot.start, f, k, FlagText(list[j].1) + rest);
    SliceAfter(line, slot.start, MarkerText(f, k, ENABLE), FlagText(list[j].1) + rest);
    SliceAfter(line, slot.start + |MarkerText(f, k, ENABLE)|, FlagText(list[j].1), rest);
    assert line[slot.end - 1..slot.end][0] == line[slot.end - 1];
    SlotIsFree(list, f, taken, k, j);
  }

  lemma SearchPrinted(list: seq<(nat, bool)>, f: Family, taken: seq<Hit>, k: nat, j: nat)
    requires Known(f) && k > 0 && TakenOk(list, f, taken, k) && j <= |list| && (j < |list| ==> list[j].0 == k)
    requires forall i | 0 <= i < j :: list[i].0 != k
    ensures FirstHit(FlagReply(list, f), f, Flags, k, taken, 0) ==
            if j < |list| then Some(Slot(list, f, j)) else None
  {
    FindIndex(list, f, k, j);
    if j < |list| {
      SlotIsHit(list, f, taken, k, j);
    }
  }

  /** The next update, and the pairs so far. */
  lemma TakeNext(list: seq<(nat, bool)>, m: map<nat, bool>, f: Family, taken: seq<Hit>, k: nat) returns (more: seq<Hit>)
    requires Known(f) && Prints(list, m) && TakenOk(list, f, taken, k) && k > 0
    ensures TakenOk(list, f, more, k - 1)
    ensures HitsFrom(FlagReply(list, f), f, Flags, k, taken) == HitsFrom(FlagReply(list, f), f, Flags, k - 1, more)
    ensures Pairs(more) == Pairs(taken) + if k in m then [(k, m[k])] else []
  {
    if k in m {
      var j :| 0 <= j < |list| && list[j].0 == k;
      SearchPrinted(list, f, taken, k, j);
      more := taken + [Slot(list, f, j)];
    } else {
      SearchPrinted(list, f, taken, k, |list|);
      more := taken;
    }
  }

  lemma {:induction false} FlagsFrom(list: seq<(nat, bool)>, m: map<nat, bool>, f: Family, taken: seq<Hit>, k: nat)
    requires Known(f) && Prints(list, m) && TakenOk(list, f, taken, k)
    ensures Pairs(HitsFrom(FlagReply(list, f), f, Flags, k, taken)) == Pairs(taken) + Expected(m, k)
    decreases k
  {
    if k > 0 {
      var more := TakeNext(list, m, f, taken, k);
      FlagsFrom(list, m, f, more, k - 1);
      Joins(Pairs(taken), if k in m then [(k, m[k])] else [], Expected(m, k - 1));
    }
  }

  /**
   Whatever the order of the segments, an ENABLE reply gives back the printed map: every entry
   with an index of the family, highest index first.
   */
  lemma EnableRoundTrip(list: seq<(nat, bool)>, m: map<nat, bool>, f: Family)
    requires Known(f) && Prints(list, m)
    ensures Pairs(HitsFrom(FlagReply(list, f), f, Flags, f.maxIndex, [])) == Expected(m, f.maxIndex)
  {
    FlagsFrom(list, m, f, [], f.maxIndex);
  }
}
