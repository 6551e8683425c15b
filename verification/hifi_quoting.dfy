/** Quoted strings and decimal suffixes of the Hi-Fi controller's serial protocol. */
module HifiQuoting {
  import opened Machine
  import opened Text

  // --- Printing ---------------------------------------------------------------------------

  predicate NeedsEscape(c: char) { c == '"' || c == '*' || c == '\\' }

  function Escaped(v: string): string {
    if v == "" then ""
    else (if NeedsEscape(v[0]) then ['\\', v[0]] else [v[0]]) + Escaped(v[1..])
  }

  method EscapeProtocolString(value: string) returns (out: string)
    ensures out == Escaped(value)
  {
    out := "";
    for i := 0 to |value|
      invariant out + Escaped(value[i..]) == Escaped(value)
    {
      assert value[i..][1..] == value[i + 1..];
      ghost var rest := Escaped(value[i + 1..]);
      ghost var before := out;
      if NeedsEscape(value[i]) {
        out := out + ['\\'];
      }
      out := out + [value[i]];
      assert out + rest == before + ((if NeedsEscape(value[i]) then ['\\', value[i]] else [value[i]]) + rest);
    }
  }

  /** Read with backslashes as escapes, the text shows no quote and no star, and ends in no lone backslash. */
  ghost predicate Harmless(t: string)
    decreases |t|
  {
    t == "" || (if t[0] == '\\' then |t| >= 2 && Harmless(t[2..]) else t[0] != '"' && t[0] != '*' && Harmless(t[1..]))
  }

  /** An escaped value can neither end the quotes around it nor the command. */
  lemma {:induction false} EscapedIsHarmless(v: string)
    ensures Harmless(Escaped(v))
    decreases |v|
  {
    if v != "" {
      EscapedIsHarmless(v[1..]);
      var t := Escaped(v);
      assert t[(if NeedsEscape(v[0]) then 2 else 1)..] == Escaped(v[1..]);
    }
  }

  function Quoted(v: string): string { "\"" + Escaped(v) + "\"" }

  // --- Parsing ----------------------------------------------------------------------------

  /** The value from `i` on, up to the closing quote. */
  function Unquoted(line: string, i: nat): Option<string>
    decreases |line| - i
  {
    if i >= |line| then None
    else if line[i] == '\\' && i + 1 < |line| then Before([line[i + 1]], Unquoted(line, i + 2))
    else if line[i] == '"' then Some("")
    else Before([line[i]], Unquoted(line, i + 1))
  }

  function Before(a: string, r: Option<string>): Option<string> {
    match r case None => None case Some(b) => Some(a + b)
  }

  /** `parse_quoted_value` */
  function ParseQuoted(line: string, start: nat): Option<string> {
    match Find(line, "\"", start)
    case None => None
    case Some(q) => Unquoted(line, q + 1)
  }

  /** Just past the closing quote of the value that runs from `i` on, or the end of the line. */
  function PastQuote(line: string, i: nat): (e: nat)
    ensures i <= |line| ==> i <= e <= |line|
    decreases |line| - i
  {
    if i >= |line| then |line|
    else if line[i] == '\\' && i + 1 < |line| then PastQuote(line, i + 2)
    else if line[i] == '"' then i + 1
    else PastQuote(line, i + 1)
  }

  /** `quoted_value_end` */
  function QuotedValueEnd(line: string, quote: nat): nat {
    if quote >= |line| || line[quote] != '"' then quote else PastQuote(line, quote + 1)
  }

  method ParseQuotedValue(line: string, start: nat) returns (r: Option<string>)
    ensures r == ParseQuoted(line, start)
  {
    var q := Find(line, "\"", start);
    if q.None? {
      return None;
    }
    var out := "";
    var i := q.value + 1;
    if Unquoted(line, i).Some? { Joins("", Unquoted(line, i).value, ""); }
    while i < |line|
      invariant Before(out, Unquoted(line, i)) == Unquoted(line, q.value + 1)
    {
      ghost var done := out;
      if line[i] == '\\' && i + 1 < |line| {
        i := i + 1;
        out := out + [line[i]];
        i := i + 1;
        BeforeTwice(done, [line[i - 1]], Unquoted(line, i));
        continue;
      }
      if line[i] == '"' {
        assert out + "" == out;
        return Some(out);
      }
      out := out + [line[i]];
      i := i + 1;
      BeforeTwice(done, [line[i - 1]], Unquoted(line, i));
    }
    return None;
  }

  lemma BeforeTwice(a: string, b: string, r: Option<string>)
    ensures Before(a, Before(b, r)) == Before(a + b, r)
  {
    if r.Some? { Joins(a, b, r.value); }
  }

  method FindQuotedValueEnd(line: string, quote: nat) returns (e: nat)
    ensures e == QuotedValueEnd(line, quote)
  {
    if quote >= |line| || line[quote] != '"' {
      return quote;
    }
    var i := quote + 1;
    while i < |line|
      invariant PastQuote(line, i) == PastQuote(line, quote + 1)
    {
      if line[i] == '\\' && i + 1 < |line| {
        i := i + 2;
        continue;
      }
      if line[i] == '"' {
        return i + 1;
      }
      i := i + 1;
    }
    return |line|;
  }

  /** Parsing a quoted value undoes the escaping, wherever in a line it stands. */
  lemma {:induction false} UnquotedEscaped(line: string, i: nat, v: string, rest: string)
    requires i <= |line| && line[i..] == Escaped(v) + ("\"" + rest)
    ensures Unquoted(line, i) == Some(v)
    ensures PastQuote(line, i) == i + |Escaped(v)| + 1
    decreases |v|
  {
    var tail := "\"" + rest;
    if v == "" {
      assert line[i] == line[i..][0] == '"';
    } else {
      var head := if NeedsEscape(v[0]) then ['\\', v[0]] else [v[0]];
      var e := Escaped(v[1..]);
      Joins(head, e, tail);
      assert line[i..] == head + (e + tail);
      assert line[i] == head[0] && (NeedsEscape(v[0]) ==> line[i + 1] == head[1]);
      assert line[i + |head|..] == line[i..][|head|..] == e + tail;
      UnquotedEscaped(line, i + |head|, v[1..], rest);
      assert v == [v[0]] + v[1..];
    }
  }

  /** The first quote stands behind a text without quotes. */
  lemma QuoteBehind(line: string, i: nat, sep: string, rest: string)
    requires i <= |line| && line[i..] == sep + ("\"" + rest) && '"' !in sep
    ensures Find(line, "\"", i) == Some(i + |sep|) && i + |sep| < |line| && line[i + |sep|] == '"'
    ensures line[i + |sep| + 1..] == rest
  {
    var q := i + |sep|;
    SliceAfter(line, i, sep, "\"" + rest);
    SliceAfter(line, q, "\"", rest);
    forall k | i <= k < q ensures !At(line, k, "\"") {
      assert line[k..k + 1][0] == line[k] == line[i..q][k - i] == sep[k - i];
    }
    FindIs(line, "\"", i, q);
    assert line[q] == line[q..q + 1][0];
  }

  lemma QuotedText(v: string, rest: string)
    ensures Quoted(v) + rest == "\"" + (Escaped(v) + ("\"" + rest))
  {
  }

  /** A quoted value in any line, in front of anything, behind a text without quotes. */
  lemma QuotedAt(line: string, i: nat, sep: string, v: string, rest: string)
    requires i <= |line| && line[i..] == sep + (Quoted(v) + rest) && '"' !in sep
    ensures var q := i + |sep|;
            Find(line, "\"", i) == Some(q) && ParseQuoted(line, i) == Unquoted(line, q + 1) == Some(v) &&
            QuotedValueEnd(line, q) == q + |Quoted(v)| <= |line| && line[q + |Quoted(v)|..] == rest
  {
    QuotedText(v, rest);
    QuoteBehind(line, i, sep, Escaped(v) + ("\"" + rest));
    UnquotedEscaped(line, i + |sep| + 1, v, rest);
    SliceAfter(line, i, sep, Quoted(v) + rest);
    SliceAfter(line, i + |sep|, Quoted(v), rest);
  }

  lemma QuotedHere(line: string, i: nat, v: string, rest: string)
    requires i <= |line| && line[i..] == Quoted(v) + rest
    ensures i < |line| && line[i] == '"' && ParseQuoted(line, i) == Some(v)
    ensures QuotedValueEnd(line, i) == i + |Quoted(v)| <= |line| && line[i + |Quoted(v)|..] == rest
  {
    Joins("", Quoted(v) + rest, "");
    QuotedAt(line, i, "", v, rest);
    assert line[i] == line[i..][0] == '"';
  }

  // --- Several quoted values --------------------------------------------------------------

  /** The next quoted value and where it ends; nothing when a quote is missing. */
  function NextQuoted(line: string, search: nat): (r: Option<(string, nat)>)
    ensures r.Some? ==> search < r.value.1 <= |line|
  {
    match Find(line, "\"", search)
    case None => None
    case Some(q) =>
      match Unquoted(line, q + 1)
      case None => None
      case Some(v) => Some((v, PastQuote(line, q + 1)))
  }

  function Collected(line: string, search: nat): seq<string>
    decreases |line| - search
  {
    match NextQuoted(line, search)
    case None => []
    case Some((v, end)) => [v] + Collected(line, end)
  }

  method ReadNextQuoted(line: string, search: nat) returns (r: Option<(string, nat)>)
    ensures r == NextQuoted(line, search)
  {
    var q := Find(line, "\"", search);
    if q.None? {
      return None;
    }
    QuoteIsFirst(line, q.value);
    var value := ParseQuotedValue(line, q.value);
    if value.None? {
      return None;
    }
    var end := FindQuotedValueEnd(line, q.value);
    return Some((value.value, end));
  }

  method CollectQuotedValues(line: string, start: nat) returns (values: seq<string>)
    ensures values == Collected(line, start)
  {
    values := [];
    var search := start;
    while search < |line|
      invariant values + Collected(line, search) == Collected(line, start)
      decreases |line| - search
    {
      var next := ReadNextQuoted(line, search);
      if next.None? {
        break;
      }
      var (value, end) := next.value;
      Joins(values, [value], Collected(line, end));
      values := values + [value];
      search := end;
    }
  }

  lemma QuoteIsFirst(line: string, q: nat)
    requires At(line, q, "\"")
    ensures ParseQuoted(line, q) == Unquoted(line, q + 1)
  {
  }

  /** Values printed with a separator in front of each. */
  datatype Item = Item(separator: string, value: string)

  function PrintItems(items: seq<Item>): string {
    if items == [] then "" else items[0].separator + Quoted(items[0].value) + PrintItems(items[1..])
  }

  function Values(items: seq<Item>): seq<string> {
    if items == [] then [] else [items[0].value] + Values(items[1..])
  }

  lemma NoQuote(line: string, i: nat)
    requires i <= |line| && '"' !in line[i..]
    ensures NextQuoted(line, i) == None
  {
    forall k | i <= k ensures !At(line, k, "\"") {
      if k < |line| {
        assert line[k..k + 1][0] == line[k] == line[i..][k - i];
      }
    }
    FindIsNone(line, "\"", i);
  }

  lemma NextItemAt(line: string, i: nat, sep: string, v: string, more: string, tail: string) returns (next: nat)
    requires i <= |line| && line[i..] == sep + Quoted(v) + more + tail && '"' !in sep
    ensures NextQuoted(line, i) == Some((v, next)) && next <= |line| && line[next..] == more + tail
  {
    ItemInLine(line, i, sep, Quoted(v), more, tail);
    QuotedAt(line, i, sep, v, more + tail);
    next := i + |sep| + |Quoted(v)|;
  }

  lemma NextItem(line: string, i: nat, items: seq<Item>, tail: string) returns (next: nat)
    requires i <= |line| && line[i..] == PrintItems(items) + tail
    requires items != [] && '"' !in items[0].separator
    ensures NextQuoted(line, i) == Some((items[0].value, next))
    ensures next <= |line| && line[next..] == PrintItems(items[1..]) + tail
  {
    next := NextItemAt(line, i, items[0].separator, items[0].value, PrintItems(items[1..]), tail);
  }

  lemma ItemInLine(line: string, i: nat, a: string, b: string, c: string, d: string)
    requires i <= |line| && line[i..] == a + b + c + d
    ensures line[i..] == a + (b + (c + d))
  {
  }

  /** Quoted values behind quote-free separators are collected exactly, in order. */
  lemma {:induction false} CollectRoundTrip(line: string, i: nat, items: seq<Item>, tail: string)
    requires i <= |line| && line[i..] == PrintItems(items) + tail
    requires forall k | 0 <= k < |items| :: '"' !in items[k].separator
    requires '"' !in tail
    ensures Collected(line, i) == Values(items)
    decreases |items|
  {
    if items == [] {
      Joins("", tail, "");
      NoQuote(line, i);
    } else {
      var next := NextItem(line, i, items, tail);
      CollectRoundTrip(line, next, items[1..], tail);
    }
  }

  // --- Decimal suffixes -------------------------------------------------------------------

  /** `numeric_suffix_end` */
  function SuffixEnd(line: string, i: nat): (e: nat)
    ensures e >= i && (i <= |line| ==> e <= |line|)
  {
    if |line| <= i then i else DigitsEnd(line, if line[i] == '-' then i + 1 else i)
  }

  /** `parse_int_suffix` */
  function IntSuffix(line: string, i: nat): (v: int)
    ensures Int32(v)
  {
    if |line| <= i then 0
    else if line[i] == '-' then Wrap32(-NumberAt(line, i + 1))
    else NumberAt(line, i)
  }

  /** A run of digits, read into a 32-bit number. */
  function NumberAt(line: string, i: nat): (n: int)
    requires i <= |line|
    ensures Int32(n)
  {
    var digits := line[i..DigitsEnd(line, i)];
    assert forall k | 0 <= k < |digits| :: digits[k] == line[i + k];
    Wrap32(Value(digits))
  }

  /** The digit loops, which also find where the digits end. */
  method ScanDigits(line: string, start: nat) returns (value: int, end: nat)
    requires start <= |line|
    ensures end == DigitsEnd(line, start) && value == NumberAt(line, start)
  {
    value, end := 0, start;
    assert line[start..start] == "";
    while end < |line| && IsDigit(line[end])
      invariant start <= end <= |line|
      invariant forall j | start <= j < end :: IsDigit(line[j])
      invariant value == Wrap32(Value(line[start..end]))
    {
      assert line[start..end + 1][..end - start] == line[start..end];
      WrapDigit(Value(line[start..end]), DigitValue(line[end]));
      value := Wrap32(value * 10 + DigitValue(line[end]));
      end := end + 1;
    }
    DigitsEndIs(line, start, end);
  }

  method ParseIntSuffix(line: string, prefixLen: nat) returns (value: int, end: nat)
    ensures value == IntSuffix(line, prefixLen) && end == SuffixEnd(line, prefixLen)
  {
    if |line| <= prefixLen {
      return 0, prefixLen;
    }
    var negative, i := false, prefixLen;
    if line[i] == '-' {
      negative := true;
      i := i + 1;
    }
    value, end := ScanDigits(line, i);
    if negative {
      value := Wrap32(-value);
    }
  }

  lemma NumberRoundTrip(line: string, i: nat, n: nat, rest: string)
    requires i <= |line| && line[i..] == Dec(n) + rest && (rest == "" || !IsDigit(rest[0]))
    ensures NumberAt(line, i) == Wrap32(n) && DigitsEnd(line, i) == i + |Dec(n)|
  {
    DigitsInLine(line, i, Dec(n), rest);
    ValueDec(n);
  }

  /** A printed number reads back wrapped to 32 bits, so it reads back exactly when it fits them. */
  lemma SuffixRoundTrip(line: string, i: nat, v: int, rest: string)
    requires i <= |line| && line[i..] == DecInt(v) + rest && (rest == "" || !IsDigit(rest[0]))
    ensures IntSuffix(line, i) == Wrap32(v) && SuffixEnd(line, i) == i + |DecInt(v)|
    ensures IntSuffix(line, i) == v <==> Int32(v)
  {
    assert line[i] == line[i..][0];
    if v < 0 {
      MinusInLine(line, i, Dec(-v), rest);
      NumberRoundTrip(line, i + 1, -v, rest);
      WrapNegates(-v);
    } else {
      NumberRoundTrip(line, i, v, rest);
    }
  }

  lemma MinusInLine(line: string, i: nat, digits: string, rest: string)
    requires i <= |line| && line[i..] == "-" + digits + rest
    ensures i < |line| && line[i] == '-' && line[i + 1..] == digits + rest
  {
  }

  /** The accumulator of the digit loop never wraps on the digits of `v`. */
  ghost predicate AccumulatorFits(v: int) {
    var digits := Dec(Magnitude(v));
    forall k | 0 <= k <= |digits| :: Value(digits[..k]) <= INT_MAX
  }

  function Magnitude(v: int): nat { if v < 0 then -v else v }

  /** That is so for all numbers but those whose magnitude leaves the range. */
  lemma AccumulatorFitsIff(v: int)
    ensures AccumulatorFits(v) <==> -INT_MAX <= v <= INT_MAX
  {
    var n := Magnitude(v);
    var digits := Dec(n);
    var all := |digits|;
    ValueDec(n);
    assert digits[..all] == digits;
    forall k | 0 <= k <= |digits| ensures Value(digits[..k]) <= n {
      ValuePrefixBound(digits, k);
    }
    if AccumulatorFits(v) {
      assert Value(digits[..all]) <= INT_MAX;
    }
  }
}
