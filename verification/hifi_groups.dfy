/**
 Group names: `#G0NAME` and one `G<i>"<name>"` segment for each group, in any order. A name that ends with
 the marker of a group makes its closing quote look like the opening quote of that group's name.
 */
module HifiGroups {
  import opened Text
  import opened HifiQuoting
  import opened HifiBulk
  import opened HifiIndexed

  function GroupToken(f: Family, entry: (nat, string)): string { MarkerText(f, entry.0, "") + Quoted(entry.1) }

  function Segments(list: seq<(nat, string)>, f: Family): string {
    if list == [] then "" else GroupToken(f, list[0]) + Segments(list[1..], f)
  }

  function GroupReply(list: seq<(nat, string)>, f: Family, keyword: string): string {
    "#" + MarkerText(f, 0, keyword) + Segments(list, f)
  }

  function Pairs(hits: seq<Hit>): (r: seq<(nat, string)>)
    ensures |r| == |hits|
  {
    seq(|hits|, i requires 0 <= i < |hits| =>
      (hits[i].index, if hits[i].reading.Name? then hits[i].reading.text else ""))
  }

  predicate EndsWith(s: string, pat: string) { |pat| <= |s| && s[|s| - |pat|..] == pat }

  /**
   The name of segment `a` ends with the marker of group `k`, and nothing keeps the scan from reading on
   from there: neither segment beside that quote was read before, nor did group `k` come earlier in the line.
   */
  ghost predicate Sprung(list: seq<(nat, string)>, f: Family, a: nat, k: nat) {
    a + 1 < |list| && 1 <= k <= f.maxIndex && EndsWith(list[a].1, MarkerText(f, k, "")) &&
    list[a].0 < k && list[a + 1].0 <= k && forall b | 0 <= b < a :: list[b].0 != k
  }

  // --- Where the segments stand -----------------------------------------------------------

  ghost predicate SlotAt(line: string, f: Family, entry: (nat, string), start: nat, next: nat) {
    start <= next <= |line| && next == start + |GroupToken(f, entry)| &&
    line[start..] == GroupToken(f, entry) + line[next..]
  }

  /** The segments stand side by side from `at[0]` to the end of the line, behind a text without quotes. */
  ghost predicate Laid(line: string, list: seq<(nat, string)>, f: Family, at: seq<nat>) {
    |at| == |list| + 1 && at[0] <= |line| && at[|list|] == |line| &&
    (forall q | 0 <= q < at[0] :: line[q] != '"') &&
    forall j | 0 <= j < |list| :: SlotAt(line, f, list[j], at[j], at[j + 1])
  }

  lemma {:induction false} LayFrom(line: string, start: nat, list: seq<(nat, string)>, f: Family) returns (at: seq<nat>)
    requires start <= |line| && line[start..] == Segments(list, f)
    ensures |at| == |list| + 1 && at[0] == start && at[|list|] == |line|
    ensures forall j | 0 <= j < |list| :: SlotAt(line, f, list[j], at[j], at[j + 1])
    decreases |list|
  {
    if list == [] {
      at := [start];
    } else {
      var token := GroupToken(f, list[0]);
      SliceAfter(line, start, token, Segments(list[1..], f));
      var rest := LayFrom(line, start + |token|, list[1..], f);
      at := [start] + rest;
      assert SlotAt(line, f, list[0], start, start + |token|);
      forall j | 0 <= j < |list| ensures SlotAt(line, f, list[j], at[j], at[j + 1]) {
        if j > 0 { assert SlotAt(line, f, list[1..][j - 1], rest[j - 1], rest[j]); }
      }
    }
  }

  lemma Lay(list: seq<(nat, string)>, f: Family, keyword: string) returns (at: seq<nat>)
    requires Known(f) && '"' !in keyword
    ensures Laid(GroupReply(list, f, keyword), list, f, at)
  {
    var head, line := "#" + MarkerText(f, 0, keyword), GroupReply(list, f, keyword);
    assert line[|head|..] == Segments(list, f);
    at := LayFrom(line, |head|, list, f);
    forall q | 0 <= q < |head| ensures line[q] != '"' { assert line[q] == head[q]; }
  }

  lemma {:induction false} Rises(line: string, list: seq<(nat, string)>, f: Family, at: seq<nat>, i: nat, j: nat)
    requires Laid(line, list, f, at) && i < j <= |list|
    ensures at[i] < at[i + 1] <= at[j] <= |line|
    decreases j
  {
    assert SlotAt(line, f, list[i], at[i], at[i + 1]) && SlotAt(line, f, list[j - 1], at[j - 1], at[j]);
    if i < j - 1 { Rises(line, list, f, at, i, j - 1); }
  }

  lemma {:induction false} SlotOf(line: string, list: seq<(nat, string)>, f: Family, at: seq<nat>, q: nat, n: nat)
    returns (j: nat)
    requires Laid(line, list, f, at) && n <= |list| && at[0] <= q < at[n]
    ensures j < n && at[j] <= q < at[j + 1]
    decreases n
  {
    if q < at[n - 1] { j := SlotOf(line, list, f, at, q, n - 1); } else { j := n - 1; }
  }

  // --- Quotes in a segment ----------------------------------------------------------------

  function Open(f: Family, entry: (nat, string), start: nat): nat { start + |MarkerText(f, entry.0, "")| }

  lemma SlotParts(line: string, f: Family, entry: (nat, string), start: nat, next: nat)
    requires SlotAt(line, f, entry, start, next)
    ensures var open := Open(f, entry, start);
            start < open < next - 1 < |line| && line[open] == '"' && line[next - 1] == '"' &&
            line[start..open] == MarkerText(f, entry.0, "") && line[open..] == Quoted(entry.1) + line[next..] &&
            line[open + 1..next - 1] == Escaped(entry.1) && line[start] == f.prefix
  {
    var marker, open := MarkerText(f, entry.0, ""), Open(f, entry, start);
    Joins(marker, Quoted(entry.1), line[next..]);
    SliceAfter(line, start, marker, Quoted(entry.1) + line[next..]);
    QuotedText(entry.1, line[next..]);
    SliceAfter(line, open, "\"", Escaped(entry.1) + ("\"" + line[next..]));
    SliceAfter(line, open + 1, Escaped(entry.1), "\"" + line[next..]);
    SliceAfter(line, next - 1, "\"", line[next..]);
    assert line[open] == line[open..open + 1][0] && line[next - 1] == line[next - 1..next][0];
    assert line[start] == line[start..open][0];
  }

  lemma {:induction false} EscapedQuotes(v: string, t: nat)
    requires t < |Escaped(v)| && Escaped(v)[t] == '"'
    ensures t > 0 && Escaped(v)[t - 1] == '\\'
    decreases |v|
  {
    var e := if NeedsEscape(v[0]) then ['\\', v[0]] else [v[0]];
    if t >= |e| { EscapedQuotes(v[1..], t - |e|); }
  }

  lemma MarkerChars(f: Family, k: nat)
    requires Known(f)
    ensures var m := MarkerText(f, k, "");
            |m| >= 2 && m[0] == f.prefix && !IsDigit(f.prefix) &&
            (forall t | 1 <= t < |m| :: IsDigit(m[t])) && forall t | 0 <= t < |m| :: !NeedsEscape(m[t])
  {
  }

  lemma AtChar(line: string, p: nat, pat: string, t: nat)
    requires At(line, p, pat)
    ensures t < |pat| ==> line[p + t] == pat[t]
  {
    assert t < |pat| ==> line[p..p + |pat|][t] == pat[t];
  }

  lemma NoQuoteInside(line: string, p: nat, f: Family, k: nat, q: nat)
    requires Known(f) && p <= q < p + |MarkerText(f, k, "")| && At(line, p, MarkerText(f, k, ""))
    ensures line[q] != '"'
  {
    MarkerChars(f, k);
    AtChar(line, p, MarkerText(f, k, ""), q - p);
  }

  /** A quote in a segment is its first, its last, or behind a backslash. */
  lemma SlotQuotes(line: string, f: Family, entry: (nat, string), start: nat, next: nat, q: nat)
    requires Known(f) && SlotAt(line, f, entry, start, next) && start <= q < next && line[q] == '"'
    ensures q == Open(f, entry, start) || q == next - 1 || (q > 0 && line[q - 1] == '\\')
  {
    SlotParts(line, f, entry, start, next);
    var open := Open(f, entry, start);
    NoQuoteInside(line, start, f, entry.0, if q < open then q else start);
    if open < q < next - 1 {
      var inner := line[open + 1..next - 1];
      EscapedQuotes(entry.1, q - open - 1);
      assert line[q - 1] == inner[q - open - 2];
    }
  }

  // --- Where a marker in front of a quote can stand ---------------------------------------

  /** In front of an opening quote there is the marker of its own segment. */
  lemma BeforeOpening(line: string, f: Family, entry: (nat, string), start: nat, next: nat, k: nat, p: nat)
    requires Known(f) && SlotAt(line, f, entry, start, next)
    requires At(line, p, MarkerText(f, k, "")) && p + |MarkerText(f, k, "")| == Open(f, entry, start)
    ensures p == start && k == entry.0
  {
    var m, own := MarkerText(f, k, ""), MarkerText(f, entry.0, "");
    SlotParts(line, f, entry, start, next);
    MarkerChars(f, k);
    MarkerChars(f, entry.0);
    AtChar(line, p, m, if p < start then start - p else 0);
    AtChar(line, start, own, if p > start then p - start else 0);
    assert Dec(k) == m[1..] && Dec(entry.0) == own[1..];
    SameDec(k, entry.0);
  }

  lemma {:induction false} EscapedAppend(a: string, b: string)
    ensures Escaped(a + b) == Escaped(a) + Escaped(b)
    decreases |a|
  {
    if a == "" {
      assert a + b == b;
    } else {
      EscapedAppend(a[1..], b);
      assert (a + b)[1..] == a[1..] + b;
      Joins(if NeedsEscape(a[0]) then ['\\', a[0]] else [a[0]], Escaped(a[1..]), Escaped(b));
    }
  }

  lemma EscapedLast(v: string)
    requires v != ""
    ensures var last := v[|v| - 1];
            Escaped(v) == Escaped(v[..|v| - 1]) + if NeedsEscape(last) then ['\\', last] else [last]
  {
    hide Escaped;
    var last := v[|v| - 1];
    assert v == v[..|v| - 1] + [last];
    EscapedAppend(v[..|v| - 1], [last]);
    EscapedOne(last);
  }

  lemma EscapedOne(c: char)
    ensures Escaped([c]) == if NeedsEscape(c) then ['\\', c] else [c]
  {
    assert [c][1..] == "" && Escaped("") == "";
  }

  /** Escaping adds nothing behind a text that needs none. */
  lemma {:induction false} EscapedEnds(v: string, pat: string)
    requires forall t | 0 <= t < |pat| :: !NeedsEscape(pat[t])
    ensures EndsWith(Escaped(v), pat) <==> EndsWith(v, pat)
    decreases |pat|
  {
    if v == "" || pat == "" {
    } else {
      var w, qat := v[..|v| - 1], pat[..|pat| - 1];
      EscapedLast(v);
      EscapedEnds(w, qat);
      EndsSnoc(v, pat);
      if !NeedsEscape(v[|v| - 1]) {
        EndsSnoc(Escaped(v), pat);
        assert Escaped(v)[..|Escaped(v)| - 1] == Escaped(w);
      } else if EndsWith(Escaped(v), pat) {
        EndsSnoc(Escaped(v), pat);
      }
    }
  }

  lemma EndsSnoc(s: string, pat: string)
    requires s != "" && pat != ""
    ensures EndsWith(s, pat) <==> EndsWith(s[..|s| - 1], pat[..|pat| - 1]) && s[|s| - 1] == pat[|pat| - 1]
  {
    var a, b := s[..|s| - 1], pat[..|pat| - 1];
    assert s == a + [s[|s| - 1]] && pat == b + [pat[|pat| - 1]];
    if |pat| <= |s| {
      assert s[|s| - |pat|..] == a[|a| - |b|..] + [s[|s| - 1]];
      if EndsWith(s, pat) { assert a[|a| - |b|..] == s[|s| - |pat|..][..|b|]; }
    }
  }

  /** In front of a closing quote there is the end of the name. */
  lemma BeforeClosing(line: string, f: Family, entry: (nat, string), start: nat, next: nat, k: nat, p: nat)
    requires Known(f) && SlotAt(line, f, entry, start, next) && p + |MarkerText(f, k, "")| == next - 1
    ensures At(line, p, MarkerText(f, k, "")) <==> EndsWith(entry.1, MarkerText(f, k, ""))
    ensures At(line, p, MarkerText(f, k, "")) ==> p > Open(f, entry, start)
  {
    hide SlotAt, Escaped, MarkerText;
    var m, open := MarkerText(f, k, ""), Open(f, entry, start);
    SlotParts(line, f, entry, start, next);
    MarkerChars(f, k);
    EscapedEnds(entry.1, m);
    var inner := line[open + 1..next - 1];
    if p > open {
      assert inner[|inner| - |m|..] == line[p..next - 1];
    } else if At(line, p, m) {
      NoQuoteInside(line, p, f, k, open);
    }
  }

  // --- What the scan reads there ----------------------------------------------------------

  ghost function SlotHit(list: seq<(nat, string)>, at: seq<nat>, j: nat): Hit
    requires |at| == |list| + 1 && j < |list|
  {
    Hit(list[j].0, Name(list[j].1), at[j], at[j + 1])
  }

  /** From the end of name `a` over the marker of the next segment to the quote behind it. */
  ghost function TrapHit(list: seq<(nat, string)>, f: Family, at: seq<nat>, a: nat, k: nat): Hit
    requires |at| == |list| + 1 && a + 1 < |list| && at[a + 1] > |MarkerText(f, k, "")|
  {
    Hit(k, Name(MarkerText(f, list[a + 1].0, "")), at[a + 1] - 1 - |MarkerText(f, k, "")|,
        Open(f, list[a + 1], at[a + 1]) + 1)
  }

  ghost predicate TrapAt(list: seq<(nat, string)>, f: Family, at: seq<nat>, h: Hit, a: nat)
    requires |at| == |list| + 1
  {
    a + 1 < |list| && at[a + 1] > |MarkerText(f, h.index, "")| && EndsWith(list[a].1, MarkerText(f, h.index, "")) &&
    h == TrapHit(list, f, at, a, h.index) && at[a] < h.start
  }

  /** The update holds the closing quote of segment `j`. */
  ghost predicate Held(list: seq<(nat, string)>, f: Family, at: seq<nat>, h: Hit, j: nat)
    requires |at| == |list| + 1
  {
    j < |list| && (h == SlotHit(list, at, j) || TrapAt(list, f, at, h, j))
  }

  /** A quote behind the marker rules out a longer index. */
  lemma QuoteEndsIndex(line: string, f: Family, k: nat, p: nat)
    requires Known(f) && At(line, p, MarkerText(f, k, ""))
    requires p + |MarkerText(f, k, "")| < |line| && line[p + |MarkerText(f, k, "")|] == '"'
    ensures !Shadowed(line, f, k, p)
  {
    var q := p + |MarkerText(f, k, "")|;
    forall longer | k < longer <= f.maxIndex && |Dec(longer)| > |Dec(k)|
      ensures !At(line, p, MarkerText(f, longer, ""))
    {
      if At(line, p, MarkerText(f, longer, "")) { NoQuoteInside(line, p, f, longer, q); }
    }
  }

  lemma SlotReads(line: string, f: Family, entry: (nat, string), start: nat, next: nat)
    requires Known(f) && SlotAt(line, f, entry, start, next)
    ensures At(line, start, KindMarker(f, QuotedNames, entry.0)) && !Shadowed(line, f, entry.0, start)
    ensures ReadingAt(line, QuotedNames, Open(f, entry, start)) == Some((Name(entry.1), next))
  {
    SlotParts(line, f, entry, start, next);
    QuoteEndsIndex(line, f, entry.0, start);
    QuotedHere(line, Open(f, entry, start), entry.1, line[next..]);
  }

  lemma {:induction false} PlainEscaped(v: string)
    requires forall t | 0 <= t < |v| :: !NeedsEscape(v[t])
    ensures Escaped(v) == v
    decreases |v|
  {
    if v != "" { PlainEscaped(v[1..]); }
  }

  /** A closing quote, taken for an opening one, reads the marker of the next segment as a name. */
  lemma TrapReads(line: string, f: Family, entry: (nat, string), start: nat, next: nat, quote: nat)
    requires Known(f) && SlotAt(line, f, entry, start, next) && quote + 1 == start && line[quote] == '"'
    ensures ReadingAt(line, QuotedNames, quote) == Some((Name(MarkerText(f, entry.0, "")), Open(f, entry, start) + 1))
  {
    hide ReadingAt, Escaped, Quoted;
    var m, rest := MarkerText(f, entry.0, ""), Escaped(entry.1) + ("\"" + line[next..]);
    Joins(m, Quoted(entry.1), line[next..]);
    QuotedText(entry.1, line[next..]);
    assert line[start..] == m + ("\"" + rest);
    assert line[quote..] == "\"" + line[start..];
    MarkerChars(f, entry.0);
    PlainEscaped(m);
    QuotedText(m, rest);
    NameReads(line, quote, m, rest);
    QuotedLength(m);
  }

  lemma QuotedLength(v: string)
    ensures |Quoted(v)| == |Escaped(v)| + 2
  {
  }

  lemma NameReads(line: string, quote: nat, v: string, rest: string)
    requires quote <= |line| && line[quote..] == Quoted(v) + rest
    ensures ReadingAt(line, QuotedNames, quote) == Some((Name(v), quote + |Quoted(v)|))
  {
    QuotedHere(line, quote, v, rest);
  }

  lemma NothingBehind(line: string, quote: nat)
    requires quote + 1 == |line| && line[quote] == '"'
    ensures ReadingAt(line, QuotedNames, quote) == None
  {
  }

  lemma NoQuoteNoHit(line: string, f: Family, k: nat, taken: seq<Hit>, p: nat)
    requires HitAt(line, f, QuotedNames, k, taken, p).Some?
    ensures var q := p + |MarkerText(f, k, "")|;
            q < |line| && line[q] == '"' && ReadingAt(line, QuotedNames, q).Some? &&
            var (reading, end) := ReadingAt(line, QuotedNames, q).value;
            HitAt(line, f, QuotedNames, k, taken, p) == Some(Hit(k, reading, p, end)) && !Overlaps(taken, p, end)
  {
  }

  lemma MarkerQuote(line: string, list: seq<(nat, string)>, f: Family, at: seq<nat>, k: nat, p: nat) returns (j: nat)
    requires Known(f) && Laid(line, list, f, at) && At(line, p, MarkerText(f, k, ""))
    requires p + |MarkerText(f, k, "")| < |line| && line[p + |MarkerText(f, k, "")|] == '"'
    ensures j < |list| && SlotAt(line, f, list[j], at[j], at[j + 1])
    ensures (p == at[j] && k == list[j].0)
            || (p + |MarkerText(f, k, "")| == at[j + 1] - 1 && EndsWith(list[j].1, MarkerText(f, k, "")) && at[j] < p)
  {
    var q := p + |MarkerText(f, k, "")|;
    j := SlotOf(line, list, f, at, q, |list|);
    SlotQuotes(line, f, list[j], at[j], at[j + 1], q);
    MarkerChars(f, k);
    AtChar(line, p, MarkerText(f, k, ""), q - 1 - p);
    if q == Open(f, list[j], at[j]) {
      BeforeOpening(line, f, list[j], at[j], at[j + 1], k, p);
    } else {
      BeforeClosing(line, f, list[j], at[j], at[j + 1], k, p);
    }
  }

  /** A reading is that of a segment or of a closing quote that follows a marker. */
  lemma Places(line: string, list: seq<(nat, string)>, f: Family, at: seq<nat>, k: nat, taken: seq<Hit>, p: nat)
    returns (j: nat)
    requires Known(f) && Laid(line, list, f, at) && At(line, p, KindMarker(f, QuotedNames, k))
    requires HitAt(line, f, QuotedNames, k, taken, p).Some?
    ensures var h := HitAt(line, f, QuotedNames, k, taken, p).value;
            h.index == k && h.start == p && !Overlaps(taken, h.start, h.end) &&
            Held(list, f, at, h, j)
  {
    hide HitAt, ReadingAt;
    NoQuoteNoHit(line, f, k, taken, p);
    j := MarkerQuote(line, list, f, at, k, p);
    if p == at[j] && k == list[j].0 {
      SlotReads(line, f, list[j], at[j], at[j + 1]);
    } else {
      SlotParts(line, f, list[j], at[j], at[j + 1]);
      if j + 1 == |list| {
        NothingBehind(line, at[j + 1] - 1);
        assert false;
      } else {
        TrapReads(line, f, list[j + 1], at[j + 1], at[j + 2], at[j + 1] - 1);
      }
    }
  }

  // --- Searching one group ----------------------------------------------------------------

  ghost predicate Printable(list: seq<(nat, string)>, m: map<nat, string>, f: Family) {
    Prints(list, m) && forall k | k in m :: InRange(f, k)
  }

  /** Exactly the segments of greater indices were taken so far. */
  ghost predicate TakenOk(list: seq<(nat, string)>, at: seq<nat>, taken: seq<Hit>, k: nat)
    requires |at| == |list| + 1
  {
    (forall h | h in taken :: h.index > k && exists j | 0 <= j < |list| :: h == SlotHit(list, at, j)) &&
    (forall j | 0 <= j < |list| && list[j].0 > k :: SlotHit(list, at, j) in taken)
  }

  /** A span that ends before segment `a` or begins behind segment `b` is free of those taken. */
  lemma FreeSpan(line: string, list: seq<(nat, string)>, f: Family, at: seq<nat>, taken: seq<Hit>, k: nat,
                 a: nat, b: nat, start: nat, end: nat)
    requires Laid(line, list, f, at) && TakenOk(list, at, taken, k) && a <= b < |list|
    requires at[a] <= start && end <= at[b + 1]
    requires forall j | a <= j <= b :: list[j].0 <= k
    ensures !Overlaps(taken, start, end)
  {
    hide SlotAt;
    forall i | 0 <= i < |taken| ensures taken[i].end <= start || end <= taken[i].start {
      assert taken[i] in taken;
      var j :| 0 <= j < |list| && taken[i] == SlotHit(list, at, j);
      SlotBeside(line, list, f, at, j, a, b);
    }
  }

  lemma SlotBeside(line: string, list: seq<(nat, string)>, f: Family, at: seq<nat>, j: nat, a: nat, b: nat)
    requires Laid(line, list, f, at) && j < |list| && a <= b < |list| && !(a <= j <= b)
    ensures at[j + 1] <= at[a] || at[b + 1] <= at[j]
  {
    hide SlotAt;
    if j < a { Rises(line, list, f, at, j, a); }
    if j > b + 1 { Rises(line, list, f, at, b + 1, j); }
  }

  lemma SlotIsHit(line: string, list: seq<(nat, string)>, f: Family, at: seq<nat>, taken: seq<Hit>, j: nat)
    requires Known(f) && Laid(line, list, f, at) && j < |list| && TakenOk(list, at, taken, list[j].0)
    ensures At(line, at[j], KindMarker(f, QuotedNames, list[j].0))
    ensures HitAt(line, f, QuotedNames, list[j].0, taken, at[j]) == Some(SlotHit(list, at, j))
  {
    hide ReadingAt;
    SlotReads(line, f, list[j], at[j], at[j + 1]);
    FreeSpan(line, list, f, at, taken, list[j].0, j, j, at[j], at[j + 1]);
    HitIs(line, f, QuotedNames, list[j].0, taken, at[j], Name(list[j].1), at[j + 1]);
  }

  /** Only a closing quote between segments of smaller or equal indices can still be read from. */
  lemma TrapIsFree(line: string, list: seq<(nat, string)>, f: Family, at: seq<nat>, taken: seq<Hit>, h: Hit, a: nat)
    requires Laid(line, list, f, at) && TakenOk(list, at, taken, h.index) && TrapAt(list, f, at, h, a)
    requires !Overlaps(taken, h.start, h.end)
    ensures list[a].0 <= h.index && list[a + 1].0 <= h.index
  {
    Rises(line, list, f, at, a, a + 1);
    Rises(line, list, f, at, a + 1, a + 2);
    OpenInside(line, list, f, at, a + 1);
    ClearOf(taken, SlotHit(list, at, a), h.start, h.end);
    ClearOf(taken, SlotHit(list, at, a + 1), h.start, h.end);
  }

  lemma OpenInside(line: string, list: seq<(nat, string)>, f: Family, at: seq<nat>, j: nat)
    requires Laid(line, list, f, at) && j < |list|
    ensures at[j] < Open(f, list[j], at[j]) < at[j + 1] - 1
  {
    SlotParts(line, f, list[j], at[j], at[j + 1]);
  }

  lemma ClearOf(taken: seq<Hit>, x: Hit, start: nat, end: nat)
    requires !Overlaps(taken, start, end)
    ensures x in taken ==> end <= x.start || x.end <= start
  {
  }

  /** Without a sprung quote, only its own segment is read for group `k`, or something behind it. */
  lemma NothingBefore(line: string, list: seq<(nat, string)>, f: Family, at: seq<nat>, taken: seq<Hit>, k: nat, p: nat)
    returns (b: nat)
    requires Known(f) && Laid(line, list, f, at) && TakenOk(list, at, taken, k) && 1 <= k <= f.maxIndex
    requires forall a: nat :: !Sprung(list, f, a, k)
    requires At(line, p, KindMarker(f, QuotedNames, k)) && HitAt(line, f, QuotedNames, k, taken, p).Some?
    ensures b < |list| && list[b].0 == k && at[b] <= p
  {
    hide HitAt;
    var a := Places(line, list, f, at, k, taken, p);
    var h := HitAt(line, f, QuotedNames, k, taken, p).value;
    b := a;
    if TrapAt(list, f, at, h, a) {
      TrapIsFree(line, list, f, at, taken, h, a);
      if list[a].0 != k {
        assert !Sprung(list, f, a, k);
        b :| 0 <= b < a && list[b].0 == k;
        Rises(line, list, f, at, b, a);
      }
    }
  }

  lemma SearchPrinted(line: string, list: seq<(nat, string)>, m: map<nat, string>, f: Family, at: seq<nat>,
                      taken: seq<Hit>, k: nat, j: nat)
    requires Known(f) && Laid(line, list, f, at) && Prints(list, m) && 1 <= k <= f.maxIndex && j <= |list|
    requires TakenOk(list, at, taken, k) && forall a: nat :: !Sprung(list, f, a, k)
    requires if j < |list| then list[j].0 == k else k !in m
    ensures FirstHit(line, f, QuotedNames, k, taken, 0) == if j < |list| then Some(SlotHit(list, at, j)) else None
  {
    hide HitAt;
    if j < |list| {
      SlotIsHit(line, list, f, at, taken, j);
      forall p | 0 <= p < at[j] && At(line, p, KindMarker(f, QuotedNames, k))
        ensures HitAt(line, f, QuotedNames, k, taken, p) == None
      {
        if HitAt(line, f, QuotedNames, k, taken, p).Some? {
          var b := NothingBefore(line, list, f, at, taken, k, p);
        }
      }
      FirstHitIs(line, f, QuotedNames, k, taken, 0, at[j]);
    } else {
      forall p | 0 <= p && At(line, p, KindMarker(f, QuotedNames, k))
        ensures HitAt(line, f, QuotedNames, k, taken, p) == None
      {
        if HitAt(line, f, QuotedNames, k, taken, p).Some? {
          var b := NothingBefore(line, list, f, at, taken, k, p);
        }
      }
      FirstHitNone(line, f, QuotedNames, k, taken, 0);
    }
  }

  lemma TakenMore(list: seq<(nat, string)>, at: seq<nat>, m: map<nat, string>, taken: seq<Hit>, k: nat, j: nat)
    requires |at| == |list| + 1 && TakenOk(list, at, taken, k) && k > 0 && Prints(list, m)
    requires j < |list| && list[j].0 == k
    ensures TakenOk(list, at, taken + [SlotHit(list, at, j)], k - 1)
    ensures Pairs(taken + [SlotHit(list, at, j)]) == Pairs(taken) + [(k, list[j].1)]
  {
    var more := taken + [SlotHit(list, at, j)];
    forall i | 0 <= i < |list| && list[i].0 > k - 1 ensures SlotHit(list, at, i) in more {
      assert list[i].0 == k ==> i == j;
      assert SlotHit(list, at, j) in more;
      if list[i].0 > k { assert SlotHit(list, at, i) in taken; }
    }
  }

  lemma TakeNext(line: string, list: seq<(nat, string)>, m: map<nat, string>, f: Family, at: seq<nat>,
                 taken: seq<Hit>, k: nat)
    returns (more: seq<Hit>)
    requires Known(f) && Laid(line, list, f, at) && Prints(list, m) && 1 <= k <= f.maxIndex
    requires TakenOk(list, at, taken, k) && forall a: nat :: !Sprung(list, f, a, k)
    ensures TakenOk(list, at, more, k - 1)
    ensures HitsFrom(line, f, QuotedNames, k, taken) == HitsFrom(line, f, QuotedNames, k - 1, more)
    ensures Pairs(more) == Pairs(taken) + if k in m then [(k, m[k])] else []
  {
    hide FirstHit, HitsFrom;
    if k in m {
      var j :| 0 <= j < |list| && list[j].0 == k;
      SearchPrinted(line, list, m, f, at, taken, k, j);
      HitsStep(line, f, QuotedNames, k, taken, Some(SlotHit(list, at, j)));
      more := taken + [SlotHit(list, at, j)];
      TakenMore(list, at, m, taken, k, j);
    } else {
      SearchPrinted(line, list, m, f, at, taken, k, |list|);
      HitsStep(line, f, QuotedNames, k, taken, None);
      more := taken;
      assert forall j | 0 <= j < |list| :: list[j].0 != k;
    }
  }

  /** Down to the first sprung quote, every group is read from its own segment. */
  lemma {:induction false} TakeTo(line: string, list: seq<(nat, string)>, m: map<nat, string>, f: Family, at: seq<nat>,
                                  taken: seq<Hit>, k: nat, stop: nat)
    returns (more: seq<Hit>)
    requires Known(f) && Laid(line, list, f, at) && Prints(list, m) && stop <= k <= f.maxIndex
    requires TakenOk(list, at, taken, k) && forall a: nat, n | stop < n <= k :: !Sprung(list, f, a, n)
    ensures TakenOk(list, at, more, stop)
    ensures HitsFrom(line, f, QuotedNames, k, taken) == HitsFrom(line, f, QuotedNames, stop, more)
    ensures Pairs(more) + Expected(m, stop) == Pairs(taken) + Expected(m, k)
    decreases k
  {
    if k == stop {
      more := taken;
    } else {
      var next := TakeNext(line, list, m, f, at, taken, k);
      more := TakeTo(line, list, m, f, at, next, k - 1, stop);
      Joins(Pairs(taken), if k in m then [(k, m[k])] else [], Expected(m, k - 1));
    }
  }

  lemma TakenNone(list: seq<(nat, string)>, m: map<nat, string>, f: Family, at: seq<nat>)
    requires Printable(list, m, f) && |at| == |list| + 1
    ensures TakenOk(list, at, [], f.maxIndex)
  {
  }

  /** Without a sprung quote every name comes back, highest index first. */
  lemma NamesComeBack(line: string, list: seq<(nat, string)>, m: map<nat, string>, f: Family, at: seq<nat>)
    requires Known(f) && Laid(line, list, f, at) && Printable(list, m, f)
    requires forall a: nat, k: nat :: !Sprung(list, f, a, k)
    ensures Pairs(HitsFrom(line, f, QuotedNames, f.maxIndex, [])) == Expected(m, f.maxIndex)
  {
    TakenNone(list, m, f, at);
    var all := TakeTo(line, list, m, f, at, [], f.maxIndex, 0);
    assert Pairs(all) + [] == Pairs(all) && Pairs([]) + Expected(m, f.maxIndex) == Expected(m, f.maxIndex);
  }

  // --- A sprung quote ---------------------------------------------------------------------

  lemma TrapRoom(line: string, list: seq<(nat, string)>, f: Family, at: seq<nat>, a: nat, k: nat)
    requires Known(f) && Laid(line, list, f, at) && a + 1 < |list| && EndsWith(list[a].1, MarkerText(f, k, ""))
    ensures at[a + 1] > |MarkerText(f, k, "")|
    ensures var h := TrapHit(list, f, at, a, k);
            TrapAt(list, f, at, h, a) && At(line, h.start, MarkerText(f, k, "")) &&
            !Shadowed(line, f, k, h.start) && h.end <= at[a + 2]
  {
    var m, next := MarkerText(f, k, ""), at[a + 1];
    SlotParts(line, f, list[a], at[a], next);
    SlotParts(line, f, list[a + 1], next, at[a + 2]);
    MarkerChars(f, k);
    EscapedEnds(list[a].1, m);
    BeforeClosing(line, f, list[a], at[a], next, k, next - 1 - |m|);
    QuoteEndsIndex(line, f, k, next - 1 - |m|);
  }

  lemma TrapIsHit(line: string, list: seq<(nat, string)>, f: Family, at: seq<nat>, taken: seq<Hit>, a: nat, k: nat)
    requires Known(f) && Laid(line, list, f, at) && TakenOk(list, at, taken, k) && Sprung(list, f, a, k)
    ensures at[a + 1] > |MarkerText(f, k, "")|
    ensures var h := TrapHit(list, f, at, a, k);
            At(line, h.start, KindMarker(f, QuotedNames, k)) && at[a] < h.start < at[a + 1] &&
            HitAt(line, f, QuotedNames, k, taken, h.start) == Some(h)
  {
    hide ReadingAt, SlotAt;
    TrapRoom(line, list, f, at, a, k);
    var h := TrapHit(list, f, at, a, k);
    FreeSpan(line, list, f, at, taken, k, a, a + 1, h.start, h.end);
    SlotQuoteAt(line, list, f, at, a);
    TrapReads(line, f, list[a + 1], at[a + 1], at[a + 2], at[a + 1] - 1);
    HitIs(line, f, QuotedNames, k, taken, h.start, h.reading, h.end);
  }

  lemma SlotQuoteAt(line: string, list: seq<(nat, string)>, f: Family, at: seq<nat>, j: nat)
    requires Laid(line, list, f, at) && j < |list|
    ensures 0 < at[j + 1] <= |line| && line[at[j + 1] - 1] == '"'
  {
    SlotParts(line, f, list[j], at[j], at[j + 1]);
  }

  /** At a sprung quote the search ends, there or at one before it. */
  lemma TrapIsTaken(line: string, list: seq<(nat, string)>, f: Family, at: seq<nat>, taken: seq<Hit>, a: nat, k: nat)
    returns (h: Hit, b: nat)
    requires Known(f) && Laid(line, list, f, at) && TakenOk(list, at, taken, k) && Sprung(list, f, a, k)
    ensures FirstHit(line, f, QuotedNames, k, taken, 0) == Some(h) && TrapAt(list, f, at, h, b)
  {
    hide HitAt, SlotAt;
    TrapIsHit(line, list, f, at, taken, a, k);
    var p := FirstHitBefore(line, f, QuotedNames, k, taken, 0, at[a + 1] - 1 - |MarkerText(f, k, "")|);
    b := Places(line, list, f, at, k, taken, p);
    h := HitAt(line, f, QuotedNames, k, taken, p).value;
    if b > a { Rises(line, list, f, at, a, b); }
  }

  // --- Updates and closing quotes ---------------------------------------------------------

  ghost predicate AllHeld(list: seq<(nat, string)>, f: Family, at: seq<nat>, hits: seq<Hit>)
    requires |at| == |list| + 1
  {
    forall h | h in hits :: exists j :: Held(list, f, at, h, j)
  }

  lemma FirstIsHeld(line: string, list: seq<(nat, string)>, f: Family, at: seq<nat>, taken: seq<Hit>, k: nat, from: nat)
    requires Known(f) && Laid(line, list, f, at)
    ensures var r := FirstHit(line, f, QuotedNames, k, taken, from);
            r.Some? ==> exists j :: Held(list, f, at, r.value, j)
    decreases |line| - from
  {
    hide HitAt, SlotAt, Held;
    var r := Find(line, KindMarker(f, QuotedNames, k), from);
    if r.Some? {
      if HitAt(line, f, QuotedNames, k, taken, r.value).Some? {
        var j := Places(line, list, f, at, k, taken, r.value);
      } else {
        FirstIsHeld(line, list, f, at, taken, k, r.value + 1);
      }
    }
  }

  /** Every update, in any state of the scan, holds a closing quote. */
  lemma {:induction false} HitsAreHeld(line: string, list: seq<(nat, string)>, f: Family, at: seq<nat>,
                                       taken: seq<Hit>, k: nat)
    requires Known(f) && Laid(line, list, f, at) && AllHeld(list, f, at, taken)
    ensures AllHeld(list, f, at, HitsFrom(line, f, QuotedNames, k, taken))
    decreases k
  {
    hide Held, SlotAt, FirstHit;
    if k > 0 {
      var r := FirstHit(line, f, QuotedNames, k, taken, 0);
      FirstIsHeld(line, list, f, at, taken, k, 0);
      HitsStep(line, f, QuotedNames, k, taken, r);
      HitsAreHeld(line, list, f, at, if r.Some? then taken + [r.value] else taken, k - 1);
    }
  }

  /** Two updates do not hold the same quote. */
  lemma HeldOnce(line: string, list: seq<(nat, string)>, f: Family, at: seq<nat>, hits: seq<Hit>, below: nat, g: Hit,
                 h: Hit, j: nat)
    requires Laid(line, list, f, at) && WellSpread(hits, line, f, below) && g in hits && h in hits
    requires Held(list, f, at, g, j) && Held(list, f, at, h, j)
    ensures g == h
  {
    HeldQuote(line, list, f, at, g, j);
    HeldQuote(line, list, f, at, h, j);
  }

  lemma HeldQuote(line: string, list: seq<(nat, string)>, f: Family, at: seq<nat>, h: Hit, j: nat)
    requires Laid(line, list, f, at) && Held(list, f, at, h, j)
    ensures h.start < at[j + 1] <= h.end
    ensures TrapAt(list, f, at, h, j) ==> at[j + 1] < h.end
  {
    OpenInside(line, list, f, at, j);
    MarkerLength(f, h.index);
    if TrapAt(list, f, at, h, j) { OpenInside(line, list, f, at, j + 1); }
  }

  lemma MarkerLength(f: Family, k: nat)
    ensures |MarkerText(f, k, "")| > 0
  {
  }

  /** The segment behind the last quote that was read from has no update of its own. */
  lemma NextIsLost(line: string, list: seq<(nat, string)>, f: Family, at: seq<nat>, hits: seq<Hit>, below: nat,
                   g: Hit, a: nat)
    requires Laid(line, list, f, at) && WellSpread(hits, line, f, below) && g in hits && TrapAt(list, f, at, g, a)
    requires forall h, b | h in hits && b > a :: !TrapAt(list, f, at, h, b)
    ensures forall h | h in hits :: !Held(list, f, at, h, a + 1)
  {
    hide SlotAt;
    HeldQuote(line, list, f, at, g, a);
    forall h | h in hits ensures !Held(list, f, at, h, a + 1) {
      assert !TrapAt(list, f, at, h, a + 1);
      SlotCrosses(line, list, at, f, hits, below, g, h, a);
    }
  }

  lemma SlotCrosses(line: string, list: seq<(nat, string)>, at: seq<nat>, f: Family, hits: seq<Hit>, below: nat,
                    g: Hit, h: Hit, a: nat)
    requires |at| == |list| + 1 && a + 1 < |list| && WellSpread(hits, line, f, below) && g in hits && h in hits
    requires g.start < at[a + 1] < g.end
    ensures h != SlotHit(list, at, a + 1)
  {
  }

  /** The last quote that was read from. */
  lemma {:induction false} LastTrap(list: seq<(nat, string)>, f: Family, at: seq<nat>, hits: seq<Hit>, g: Hit, a: nat)
    returns (last: Hit, b: nat)
    requires |at| == |list| + 1 && g in hits && TrapAt(list, f, at, g, a)
    ensures last in hits && TrapAt(list, f, at, last, b)
    ensures forall h, c | h in hits && c > b :: !TrapAt(list, f, at, h, c)
    decreases |list| - a
  {
    if h, c :| h in hits && c > a && TrapAt(list, f, at, h, c) {
      last, b := LastTrap(list, f, at, hits, h, c);
    } else {
      last, b := g, a;
    }
  }

  /** Numbers below `n` are at most `n`. */
  lemma {:induction false} FewBelow(s: set<nat>, n: nat)
    requires forall c | c in s :: c < n
    ensures |s| <= n
    decreases n
  {
    if n > 0 {
      FewBelow(s - {n - 1}, n - 1);
      assert s <= (s - {n - 1}) + {n - 1};
    } else {
      assert s == {};
    }
  }

  /** The update for entry `i` holds the closing quote of segment `c`. */
  ghost predicate HolderOf(list: seq<(nat, string)>, f: Family, at: seq<nat>, hits: seq<Hit>, i: nat, c: nat)
    requires |at| == |list| + 1
  {
    i < |list| && exists h | h in hits :: h.index == list[i].0 && Held(list, f, at, h, c)
  }

  ghost predicate AllFound(list: seq<(nat, string)>, hits: seq<Hit>) {
    forall i | 0 <= i < |list| :: exists h | h in hits :: h.index == list[i].0
  }

  lemma OneHolder(line: string, list: seq<(nat, string)>, m: map<nat, string>, f: Family, at: seq<nat>, hits: seq<Hit>,
                  i: nat, j: nat, c: nat)
    requires Laid(line, list, f, at) && Prints(list, m) && WellSpread(hits, line, f, 0)
    requires HolderOf(list, f, at, hits, i, c) && HolderOf(list, f, at, hits, j, c)
    ensures i == j
  {
    hide Held, SlotAt;
    var g :| g in hits && g.index == list[i].0 && Held(list, f, at, g, c);
    var h :| h in hits && h.index == list[j].0 && Held(list, f, at, h, c);
    HeldOnce(line, list, f, at, hits, 0, g, h, c);
  }

  /** The quotes held by the updates of the first `i` entries are `i` different ones. */
  lemma {:induction false} HeldQuotes(line: string, list: seq<(nat, string)>, m: map<nat, string>, f: Family,
                                      at: seq<nat>,
                                      hits: seq<Hit>, i: nat) returns (s: set<nat>)
    requires Laid(line, list, f, at) && Prints(list, m) && WellSpread(hits, line, f, 0)
    requires AllHeld(list, f, at, hits) && AllFound(list, hits) && i <= |list| && |at| == |list| + 1
    ensures |s| == i && forall c | c in s :: exists j | 0 <= j < i :: HolderOf(list, f, at, hits, j, c)
    decreases i
  {
    hide Laid, HolderOf, Prints, WellSpread, AllHeld, AllFound;
    if i == 0 {
      s := {};
    } else {
      var before := HeldQuotes(line, list, m, f, at, hits, i - 1);
      var c := Holder(list, f, at, hits, i - 1);
      forall j | 0 <= j < i - 1 ensures !HolderOf(list, f, at, hits, j, c) {
        if HolderOf(list, f, at, hits, j, c) { OneHolder(line, list, m, f, at, hits, i - 1, j, c); }
      }
      s := before + {c};
    }
  }

  lemma Holder(list: seq<(nat, string)>, f: Family, at: seq<nat>, hits: seq<Hit>, i: nat) returns (c: nat)
    requires |at| == |list| + 1 && AllHeld(list, f, at, hits) && AllFound(list, hits) && i < |list|
    ensures HolderOf(list, f, at, hits, i, c)
  {
    hide TrapAt, SlotHit;
    var index := list[i].0;
    var h :| h in hits && h.index == index;
    c :| Held(list, f, at, h, c);
  }

  /** There are fewer updates than entries once a closing quote was read from. */
  lemma SomeoneIsLost(line: string, list: seq<(nat, string)>, m: map<nat, string>, f: Family, at: seq<nat>,
                      hits: seq<Hit>,
                      g: Hit, a: nat)
    requires Laid(line, list, f, at) && Prints(list, m) && WellSpread(hits, line, f, 0)
    requires |at| == |list| + 1 && AllHeld(list, f, at, hits) && g in hits && TrapAt(list, f, at, g, a)
    ensures !AllFound(list, hits)
  {
    hide SlotAt, TrapAt, Held, HolderOf, Laid, WellSpread, Prints;
    var last, b := LastTrap(list, f, at, hits, g, a);
    TrapHasNext(list, f, at, last, b);
    NextIsLost(line, list, f, at, hits, 0, last, b);
    if AllFound(list, hits) {
      var s := HeldQuotes(line, list, m, f, at, hits, |list|);
      forall c | c in s ensures c < |list| && c != b + 1 {
        var j :| 0 <= j < |list| && HolderOf(list, f, at, hits, j, c);
        HolderIsOther(list, f, at, hits, j, c, b + 1);
      }
      FewBelow(s + {b + 1}, |list|);
    }
  }

  lemma TrapHasNext(list: seq<(nat, string)>, f: Family, at: seq<nat>, h: Hit, a: nat)
    requires |at| == |list| + 1 && TrapAt(list, f, at, h, a)
    ensures a + 1 < |list|
  {
  }

  lemma HolderIsOther(list: seq<(nat, string)>, f: Family, at: seq<nat>, hits: seq<Hit>, j: nat, c: nat, x: nat)
    requires |at| == |list| + 1 && HolderOf(list, f, at, hits, j, c) && forall h | h in hits :: !Held(list, f, at, h, x)
    ensures c < |list| && c != x
  {
  }

  lemma LostIsMissing(list: seq<(nat, string)>, m: map<nat, string>, f: Family, hits: seq<Hit>)
    requires Printable(list, m, f) && !AllFound(list, hits)
    ensures Pairs(hits) != Expected(m, f.maxIndex)
  {
    var i :| 0 <= i < |list| && forall h | h in hits :: h.index != list[i].0;
    var e := (list[i].0, m[list[i].0]);
    ExpectedIsMap(m, f.maxIndex);
    assert e in Expected(m, f.maxIndex);
    forall n | 0 <= n < |hits| ensures Pairs(hits)[n].0 != e.0 { assert hits[n] in hits; }
  }

  lemma SprungIsRead(line: string, list: seq<(nat, string)>, m: map<nat, string>, f: Family, at: seq<nat>, a: nat,
                     k: nat)
    returns (h: Hit, b: nat)
    requires Known(f) && Laid(line, list, f, at) && Printable(list, m, f) && Sprung(list, f, a, k)
    requires forall c: nat, n | k < n <= f.maxIndex :: !Sprung(list, f, c, n)
    ensures h in HitsFrom(line, f, QuotedNames, f.maxIndex, []) && TrapAt(list, f, at, h, b)
  {
    hide FirstHit, HitsFrom, SlotAt, TrapAt;
    TakenNone(list, m, f, at);
    var taken := TakeTo(line, list, m, f, at, [], f.maxIndex, k);
    h, b := TrapIsTaken(line, list, f, at, taken, a, k);
    HitsStep(line, f, QuotedNames, k, taken, Some(h));
    HitsKeep(line, f, QuotedNames, k - 1, taken + [h]);
    var all := HitsFrom(line, f, QuotedNames, f.maxIndex, []);
    assert all[|taken|] == (taken + [h])[|taken|] == h;
  }

  lemma {:induction false} GreatestSprung(list: seq<(nat, string)>, f: Family, a: nat, k: nat) returns (b: nat, n: nat)
    requires Sprung(list, f, a, k)
    ensures Sprung(list, f, b, n) && forall c: nat, i | n < i <= f.maxIndex :: !Sprung(list, f, c, i)
    decreases f.maxIndex - k
  {
    if c: nat, i :| k < i <= f.maxIndex && Sprung(list, f, c, i) {
      b, n := GreatestSprung(list, f, c, i);
    } else {
      b, n := a, k;
    }
  }

  /** A sprung quote costs a name, and the numbers of updates and entries differ for good. */
  lemma SprungLosesName(line: string, list: seq<(nat, string)>, m: map<nat, string>, f: Family, at: seq<nat>, a: nat,
                        k: nat)
    requires Known(f) && Laid(line, list, f, at) && Printable(list, m, f) && Sprung(list, f, a, k)
    ensures Pairs(HitsFrom(line, f, QuotedNames, f.maxIndex, [])) != Expected(m, f.maxIndex)
  {
    hide HitsFrom, SlotAt, TrapAt, Sprung;
    var b, n := GreatestSprung(list, f, a, k);
    var h, c := SprungIsRead(line, list, m, f, at, b, n);
    var all := HitsFrom(line, f, QuotedNames, f.maxIndex, []);
    HitsSpread(line, f, QuotedNames, f.maxIndex, []);
    HitsAreHeld(line, list, f, at, [], f.maxIndex);
    SomeoneIsLost(line, list, m, f, at, all, h, c);
    LostIsMissing(list, m, f, all);
  }

  /**
   A reply of group names, in any order, gives back the printed map if and only if no name ends with the
   marker of a group in such a place that its closing quote is read from.
   */
  lemma GroupNamesRoundTripIff(list: seq<(nat, string)>, m: map<nat, string>, f: Family, keyword: string)
    requires Known(f) && '"' !in keyword && Printable(list, m, f)
    ensures Pairs(HitsFrom(GroupReply(list, f, keyword), f, QuotedNames, f.maxIndex, [])) == Expected(m, f.maxIndex)
            <==> forall a: nat, k: nat :: !Sprung(list, f, a, k)
  {
    hide HitsFrom, Sprung, Laid;
    var line := GroupReply(list, f, keyword);
    var at := Lay(list, f, keyword);
    if a: nat, k: nat :| Sprung(list, f, a, k) {
      SprungLosesName(line, list, m, f, at, a, k);
    } else {
      NamesComeBack(line, list, m, f, at);
    }
  }

  /** Group 1 named `LOUNGE G2` takes the place of the name of group 2. */
  lemma NameSwallowed(f: Family, m: map<nat, string>)
    requires f == Family('G', 8) && m == map[1 := "LOUNGE G2", 2 := "GARDEN"]
    ensures Pairs(HitsFrom(GroupReply([(1, m[1]), (2, m[2])], f, "NAME"), f, QuotedNames, 8, [])) != Expected(m, 8)
  {
    hide HitsFrom, GroupReply;
    assert Sprung([(1, m[1]), (2, m[2])], f, 0, 2);
    GroupNamesRoundTripIff([(1, m[1]), (2, m[2])], m, f, "NAME");
  }
}
