/** The string operations the C++ services use: find, compare, decimal digits. */
module Text {
  datatype Option<+T> = None | Some(value: T)

  type Byte = bv8

  /** Concatenation is associative; saying so keeps the steps that need it short. */
  lemma Joins<X>(a: seq<X>, b: seq<X>, c: seq<X>)
    ensures a + b + c == a + (b + c)
    ensures a == [] ==> a + b == b
  {
  }

  predicate IsDigit(c: char) { '0' <= c <= '9' }

  function DigitValue(c: char): nat
    requires IsDigit(c)
  {
    c as int - '0' as int
  }

  function DigitChar(d: nat): char
    requires d < 10
  {
    '0' + d as char
  }

  /** `s.compare(i, pat.size(), pat) == 0` with the bounds check in front of it. */
  predicate At(s: string, i: nat, pat: string)
  {
    i + |pat| <= |s| && s[i..i + |pat|] == pat
  }

  /** `s.find(pat, from)`; `None` stands for `npos`. */
  function Find(s: string, pat: string, from: nat): (r: Option<nat>)
    ensures r.Some? ==> from <= r.value && At(s, r.value, pat)
    ensures r.Some? ==> forall i | from <= i < r.value :: !At(s, i, pat)
    ensures r.None? ==> forall i | from <= i :: !At(s, i, pat)
    decreases |s| - from
  {
    if from + |pat| > |s| then None
    else if At(s, from, pat) then Some(from)
    else Find(s, pat, from + 1)
  }

  /** The contract of `Find` leaves it no choice. */
  lemma FindIs(s: string, pat: string, from: nat, p: nat)
    requires from <= p && At(s, p, pat) && forall i | from <= i < p :: !At(s, i, pat)
    ensures Find(s, pat, from) == Some(p)
    decreases p - from
  {
  }

  lemma FindIsNone(s: string, pat: string, from: nat)
    requires forall i | from <= i :: !At(s, i, pat)
    ensures Find(s, pat, from) == None
  {
  }

  lemma AtShift(a: string, b: string, i: nat, pat: string)
    requires i >= |a|
    ensures At(a + b, i, pat) <==> At(b, i - |a|, pat)
  {
  }

  // --- Text cut at a delimiter ------------------------------------------------------------

  /** A non-empty piece that starts with `d` and holds no other `d`. */
  predicate Token(t: string, d: char)
  {
    |t| > 0 && t[0] == d && forall i | 1 <= i < |t| :: t[i] != d
  }

  predicate Tokens(ts: seq<string>, d: char)
  {
    forall k | 0 <= k < |ts| :: Token(ts[k], d)
  }

  function Join(ts: seq<string>): string
  {
    if ts == [] then "" else ts[0] + Join(ts[1..])
  }

  lemma {:induction false} JoinAppend(a: seq<string>, b: seq<string>)
    ensures Join(a + b) == Join(a) + Join(b)
  {
    if a == [] {
      assert a + b == b;
    } else {
      assert (a + b)[1..] == a[1..] + b;
      JoinAppend(a[1..], b);
    }
  }

  /** Index of the first piece that begins with `pat`. */
  function FirstWith(ts: seq<string>, pat: string): (r: Option<nat>)
    ensures r.Some? ==> r.value < |ts|
  {
    if ts == [] then None
    else if pat <= ts[0] then Some(0)
    else match FirstWith(ts[1..], pat)
      case None => None
      case Some(k) => Some(k + 1)
  }

  /** A token pattern can only match where a token starts, and then inside that token. */
  lemma TokenMatch(t: string, rest: string, d: char, pat: string, i: nat)
    requires Token(t, d) && Token(pat, d)
    requires rest == "" || rest[0] == d
    requires i < |t|
    ensures At(t + rest, i, pat) <==> i == 0 && pat <= t
  {
    var s := t + rest;
    if i > 0 {
      assert i + |pat| <= |s| ==> s[i..i + |pat|][0] == t[i];
    } else if |pat| > |t| {
      assert |pat| <= |s| ==> s[0..|pat|][|t|] == rest[0];
    } else {
      assert s[0..|pat|] == t[..|pat|];
    }
  }

  lemma JoinHead(ts: seq<string>, d: char)
    requires Tokens(ts, d)
    ensures Join(ts) == "" || Join(ts)[0] == d
  {
  }

  lemma {:induction false} FirstWithIs(ts: seq<string>, pat: string, j: nat)
    requires j < |ts| && pat <= ts[j] && forall k | 0 <= k < j :: !(pat <= ts[k])
    ensures FirstWith(ts, pat) == Some(j)
  {
    if j > 0 {
      FirstWithIs(ts[1..], pat, j - 1);
    }
  }

  lemma {:induction false} FirstWithNone(ts: seq<string>, pat: string)
    requires forall k | 0 <= k < |ts| :: !(pat <= ts[k])
    ensures FirstWith(ts, pat) == None
  {
    if ts != [] {
      FirstWithNone(ts[1..], pat);
    }
  }

  lemma JoinSnoc(ts: seq<string>, j: nat)
    requires j < |ts|
    ensures Join(ts[..j + 1]) == Join(ts[..j]) + ts[j]
  {
    assert ts[..j + 1] == ts[..j] + [ts[j]];
    JoinAppend(ts[..j], [ts[j]]);
    assert [ts[j]][1..] == [];
    assert Join([ts[j]]) == ts[j];
  }

  /** The text around piece `j`. */
  lemma JoinAround(ts: seq<string>, j: nat)
    requires j < |ts|
    ensures Join(ts) == Join(ts[..j]) + (ts[j] + Join(ts[j + 1..]))
  {
    assert ts == ts[..j] + ts[j..];
    JoinAppend(ts[..j], ts[j..]);
    assert ts[j..][0] == ts[j] && ts[j..][1..] == ts[j + 1..];
  }

  /** Pieces do not overlap. */
  lemma {:induction false} PiecesApart(ts: seq<string>, i: nat, j: nat)
    requires i < j <= |ts|
    ensures |Join(ts[..i])| + |ts[i]| <= |Join(ts[..j])|
    decreases j
  {
    JoinSnoc(ts, j - 1);
    if i < j - 1 {
      PiecesApart(ts, i, j - 1);
    }
  }

  lemma JoinPrefix(ts: seq<string>, k: nat)
    requires k < |ts|
    ensures Join(ts[..k + 1]) == ts[0] + Join(ts[1..][..k])
  {
    assert ts[..k + 1][1..] == ts[1..][..k];
  }

  lemma FindAfterToken(t: string, rest: string, d: char, pat: string)
    requires Token(t, d) && Token(pat, d)
    requires rest == "" || rest[0] == d
    ensures Find(t + rest, pat, 0) ==
            if pat <= t then Some(0) else Shift(|t|, Find(rest, pat, 0))
  {
    forall i: nat | i < |t| ensures At(t + rest, i, pat) <==> i == 0 && pat <= t {
      TokenMatch(t, rest, d, pat, i);
    }
    if pat <= t {
      FindIs(t + rest, pat, 0, 0);
    } else {
      FindPastPrefix(t, rest, pat, 0);
    }
  }

  /** Searching a text made of tokens for a token pattern is searching the list of tokens. */
  lemma {:induction false} FindInTokens(ts: seq<string>, d: char, pat: string)
    requires Tokens(ts, d) && Token(pat, d)
    ensures match FirstWith(ts, pat)
            case None => Find(Join(ts), pat, 0) == None
            case Some(k) => Find(Join(ts), pat, 0) == Some(|Join(ts[..k])|)
  {
    if ts != [] {
      FindInTokens(ts[1..], d, pat);
      JoinHead(ts[1..], d);
      FindAfterToken(ts[0], Join(ts[1..]), d, pat);
      if !(pat <= ts[0]) && FirstWith(ts[1..], pat).Some? {
        JoinPrefix(ts, FirstWith(ts[1..], pat).value);
      }
    }
  }

  function Shift(k: nat, p: Option<nat>): Option<nat> {
    match p case None => None case Some(i) => Some(k + i)
  }

  /** A prefix without any match only moves the position found. */
  lemma FindPastPrefix(a: string, b: string, pat: string, from: nat)
    requires from <= |a|
    requires forall i | from <= i < |a| :: !At(a + b, i, pat)
    ensures Find(a + b, pat, from) == Shift(|a|, Find(b, pat, 0))
  {
    forall i: nat | |a| <= i ensures At(a + b, i, pat) <==> At(b, i - |a|, pat) {
      AtShift(a, b, i, pat);
    }
    match Find(b, pat, 0) {
      case Some(p) =>
        FindIs(a + b, pat, from, |a| + p);
      case None =>
        forall i | from <= i ensures !At(a + b, i, pat) {
          if i >= |a| { assert !At(b, i - |a|, pat); }
        }
        FindIsNone(a + b, pat, from);
    }
  }

  // --- Decimal numbers --------------------------------------------------------------------

  /** `std::to_string` of a non-negative number. */
  function Dec(n: nat): (s: string)
    ensures |s| > 0 && forall i | 0 <= i < |s| :: IsDigit(s[i])
    ensures n > 0 ==> s[0] != '0'
  {
    if n < 10 then [DigitChar(n)] else Dec(n / 10) + [DigitChar(n % 10)]
  }

  /** `std::to_string` of any number. */
  function DecInt(v: int): string
  {
    if v < 0 then "-" + Dec(-v) else Dec(v)
  }

  /** The number a run of digits denotes. */
  function Value(s: string): (n: nat)
    requires forall i | 0 <= i < |s| :: IsDigit(s[i])
  {
    if s == "" then 0 else Value(s[..|s| - 1]) * 10 + DigitValue(s[|s| - 1])
  }

  lemma {:induction false} ValueDec(n: nat)
    ensures Value(Dec(n)) == n
  {
    if n < 10 {
      assert Dec(n)[..0] == "";
    } else {
      ValueDec(n / 10);
      assert Dec(n)[..|Dec(n)| - 1] == Dec(n / 10);
    }
  }

  lemma SameDec(i: nat, k: nat)
    requires Dec(i) == Dec(k)
    ensures i == k
  {
    ValueDec(i);
    ValueDec(k);
  }

  /** The accumulator of a digit loop never exceeds the number it ends with. */
  lemma {:induction false} ValuePrefixBound(s: string, k: nat)
    requires k <= |s| && forall i | 0 <= i < |s| :: IsDigit(s[i])
    ensures Value(s[..k]) <= Value(s)
  {
    if k < |s| {
      assert s[..|s| - 1][..k] == s[..k];
      ValuePrefixBound(s[..|s| - 1], k);
    } else {
      assert s[..k] == s;
    }
  }

  /** Where the run of digits that starts at `i` ends. */
  function DigitsEnd(s: string, i: nat): (e: nat)
    requires i <= |s|
    ensures i <= e <= |s|
    ensures forall j | i <= j < e :: IsDigit(s[j])
    ensures e < |s| ==> !IsDigit(s[e])
    decreases |s| - i
  {
    if i < |s| && IsDigit(s[i]) then DigitsEnd(s, i + 1) else i
  }

  lemma DigitsEndIs(s: string, i: nat, e: nat)
    requires i <= e <= |s| && (forall j | i <= j < e :: IsDigit(s[j])) && (e < |s| ==> !IsDigit(s[e]))
    ensures DigitsEnd(s, i) == e
    decreases e - i
  {
  }

  lemma SliceAfter(line: string, i: nat, a: string, b: string)
    requires i <= |line| && line[i..] == a + b
    ensures i + |a| <= |line| && line[i + |a|..] == b && line[i..i + |a|] == a
  {
  }

  /** A run of digits that stands in a line, followed by something else. */
  lemma DigitsInLine(line: string, i: nat, digits: string, rest: string)
    requires i <= |line| && line[i..] == digits + rest
    requires forall k | 0 <= k < |digits| :: IsDigit(digits[k])
    requires rest == "" || !IsDigit(rest[0])
    ensures DigitsEnd(line, i) == i + |digits| && line[i..i + |digits|] == digits
  {
    var e := i + |digits|;
    assert |line[i..]| == |digits| + |rest|;
    forall j | i <= j < e ensures IsDigit(line[j]) { assert line[j] == line[i..][j - i] == digits[j - i]; }
    if e < |line| { assert line[e] == line[i..][|digits|] == rest[0]; }
    DigitsEndIs(line, i, e);
    assert line[i..e] == line[i..][..|digits|];
  }

  // --- Hexadecimal numbers ----------------------------------------------------------------

  predicate IsHex(c: char) { IsDigit(c) || 'a' <= c <= 'f' || 'A' <= c <= 'F' }

  function HexDigit(c: char): (d: nat)
    requires IsHex(c)
    ensures d < 16
  {
    if IsDigit(c) then DigitValue(c)
    else if 'a' <= c <= 'f' then c as int - 'a' as int + 10
    else c as int - 'A' as int + 10
  }

  function HexValue(s: string): nat
    requires forall i | 0 <= i < |s| :: IsHex(s[i])
  {
    if s == "" then 0 else HexValue(s[..|s| - 1]) * 16 + HexDigit(s[|s| - 1])
  }
}
