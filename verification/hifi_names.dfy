/** Bulk name replies: `#Z0NAME` followed by `Z<i>NAME"<escaped name>"` segments. */
module HifiNames {
  import opened Text
  import opened HifiQuoting
  import opened HifiBulk

  const NAME := "NAME"

  // --- Names ------------------------------------------------------------------------------

  /** `<prefix><digits>NAME` at `i`, whatever the number. */
  predicate MarkerAt(s: string, i: nat, prefix: char) {
    i + 1 < |s| && s[i] == prefix && IsDigit(s[i + 1]) && At(s, DigitsEnd(s, i + 1), NAME)
  }

  predicate IsTail(c: char) { c == ' ' || c == '\r' }

  /** Digits followed by the keyword: the next marker without its prefix. */
  predicate StartsLikeMarker(name: string) {
    DigitsEnd(name, 0) > 0 && At(name, DigitsEnd(name, 0), NAME)
  }

  /** The names that travel unharmed. */
  ghost predicate Clean(name: string) {
    && name != ""
    && '#' !in name
    && !IsTail(name[|name| - 1])
    && (forall i :: !MarkerAt(name, i, 'Z'))
    && !StartsLikeMarker(name)
    && (forall i :: !At(name, i, "NAME\""))
  }

  function CutAtHash(name: string): string {
    match Find(name, "#", 0) case None => name case Some(h) => name[..h]
  }

  /** First position from `i` on where a zone marker starts, or the end. */
  function FirstMarker(name: string, i: nat): (m: nat)
    requires i <= |name|
    ensures i <= m <= |name| && forall k | i <= k < m :: !MarkerAt(name, k, 'Z')
    ensures m < |name| ==> MarkerAt(name, m, 'Z')
    decreases |name| - i
  {
    if i == |name| || MarkerAt(name, i, 'Z') then i else FirstMarker(name, i + 1)
  }

  function StripTail(name: string): (s: string)
    ensures s <= name && (s == "" || !IsTail(s[|s| - 1]))
  {
    if name != "" && IsTail(name[|name| - 1]) then StripTail(name[..|name| - 1]) else name
  }

  function Sanitized(name: string): string {
    var cut := CutAtHash(name);
    StripTail(cut[..FirstMarker(cut, 0)])
  }

  method FindFirstMarker(name: string) returns (m: nat)
    ensures m == FirstMarker(name, 0)
  {
    var i := 0;
    while i + 1 < |name|
      invariant i <= |name| && FirstMarker(name, i) == FirstMarker(name, 0)
    {
      if name[i] == 'Z' && IsDigit(name[i + 1]) {
        var _, scan := ScanDigits(name, i + 1);
        if scan + 4 <= |name| && name[scan..scan + 4] == NAME {
          return i;
        }
      }
      i := i + 1;
    }
    return |name|;
  }

  method SanitizeParsedName(raw: string) returns (name: string)
    ensures name == Sanitized(raw)
  {
    name := raw;
    var hash := Find(name, "#", 0);
    if hash.Some? {
      name := name[..hash.value];
    }
    var marker := FindFirstMarker(name);
    name := name[..marker];
    ghost var cut := name;
    while name != "" && (name[|name| - 1] == ' ' || name[|name| - 1] == '\r')
      invariant StripTail(name) == StripTail(cut)
      decreases |name|
    {
      name := name[..|name| - 1];
    }
  }

  predicate Leaked(name: string) {
    StartsLikeMarker(name) || Find(name, "NAME\"", 0).Some?
  }

  // --- Values -----------------------------------------------------------------------------

  /** A name without quotes runs up to `#` or the next marker. */
  function BareName(line: string, i: nat, prefix: char): string
    decreases |line| - i
  {
    if i >= |line| || line[i] == '#' || MarkerAt(line, i, prefix) then ""
    else [line[i]] + BareName(line, i + 1, prefix)
  }

  function RawName(line: string, start: nat, prefix: char): Option<string>
    requires start < |line|
  {
    if line[start] == '"' then ParseQuoted(line, start) else Some(BareName(line, start, prefix))
  }

  /** `parse_name_value_after_keyword` */
  function NameAfter(line: string, start: nat, prefix: char): Option<string> {
    if start >= |line| then None
    else match RawName(line, start, prefix)
      case None => None
      case Some(raw) => if Sanitized(raw) == "" then None else Some(Sanitized(raw))
  }

  method ReadBareName(line: string, start: nat, prefix: char) returns (out: string)
    ensures out == BareName(line, start, prefix)
  {
    out := "";
    var i := start;
    while i < |line|
      invariant out + BareName(line, i, prefix) == BareName(line, start, prefix)
    {
      if line[i] == '#' {
        break;
      }
      if line[i] == prefix && i + 1 < |line| && IsDigit(line[i + 1]) {
        var _, scan := ScanDigits(line, i + 1);
        if scan + 4 <= |line| && line[scan..scan + 4] == NAME {
          break;
        }
      }
      Joins(out, [line[i]], BareName(line, i + 1, prefix));
      out := out + [line[i]];
      i := i + 1;
    }
    assert out + "" == out;
  }

  method ParseNameValue(line: string, start: nat, prefix: char) returns (r: Option<string>)
    ensures r == NameAfter(line, start, prefix)
  {
    if start >= |line| {
      return None;
    }
    var raw: Option<string>;
    if line[start] == '"' {
      raw := ParseQuotedValue(line, start);
    } else {
      var out := ReadBareName(line, start, prefix);
      raw := Some(out);
    }
    if raw.None? {
      return None;
    }
    var clean := SanitizeParsedName(raw.value);
    return if clean == "" then None else Some(clean);
  }

  /** What the scan does at one position. */
  datatype Look = Skip(to: nat) | Emit(index: nat, name: string, to: nat)

  function NameHere(line: string, pos: nat, f: Family): (r: Look)
    ensures r.to > pos
  {
    match Marker(line, pos, f, NAME)
    case None => Skip(pos + 1)
    case Some((index, start)) =>
      if Marker(line, start, f, NAME).Some? then Skip(start)
      else match NameAfter(line, start, f.prefix)
        case None => Skip(pos + 1)
        case Some(name) =>
          if Leaked(name) then Skip(start)
          else Emit(index, name, if line[start] == '"' then QuotedValueEnd(line, start) else start + |name|)
  }

  /** `emit_prefixed_name_bulk` from `pos` on. */
  function NamesFrom(line: string, pos: nat, f: Family): seq<(nat, string)>
    decreases |line| - pos
  {
    if pos >= |line| then []
    else match NameHere(line, pos, f)
      case Skip(to) => NamesFrom(line, to, f)
      case Emit(index, name, to) => [(index, name)] + NamesFrom(line, to, f)
  }

  method LookAt(line: string, pos: nat, f: Family) returns (r: Look)
    ensures r == NameHere(line, pos, f)
  {
    var marker := FindMarker(line, pos, f, NAME);
    if marker.None? {
      return Skip(pos + 1);
    }
    var (index, start) := marker.value;
    var immediate := FindMarker(line, start, f, NAME);
    if immediate.Some? {
      return Skip(start);
    }
    var name := ParseNameValue(line, start, f.prefix);
    if name.None? {
      return Skip(pos + 1);
    }
    if Leaked(name.value) {
      return Skip(start);
    }
    if line[start] == '"' {
      var end := FindQuotedValueEnd(line, start);
      return Emit(index, name.value, end);
    }
    return Emit(index, name.value, start + |name.value|);
  }

  method EmitNameBulk(line: string, f: Family) returns (out: seq<(nat, string)>)
    ensures out == NamesFrom(line, 0, f)
  {
    out := [];
    var pos := 0;
    while pos < |line|
      invariant out + NamesFrom(line, pos, f) == NamesFrom(line, 0, f)
      decreases |line| - pos
    {
      var look := LookAt(line, pos, f);
      if look.Emit? {
        Joins(out, [(look.index, look.name)], NamesFrom(line, look.to, f));
        out := out + [(look.index, look.name)];
      }
      pos := look.to;
    }
  }

  // --- Only clean names come out, of any line ----------------------------------------------

  lemma MarkerInPrefix(name: string, n: nat, i: nat, prefix: char)
    requires n <= |name| && MarkerAt(name[..n], i, prefix)
    ensures MarkerAt(name, i, prefix)
  {
  }

  lemma HashCut(name: string)
    ensures '#' !in CutAtHash(name)
    ensures '#' !in name ==> CutAtHash(name) == name
  {
    var r := Find(name, "#", 0);
    forall i | 0 <= i < |name| ensures name[i] == '#' <==> At(name, i, "#") {
      assert name[i..i + 1] == [name[i]];
    }
    if r.Some? {
      assert At(name, r.value, "#") && name[r.value] == '#';
    }
  }

  lemma SanitizedIsClean(raw: string)
    ensures var s := Sanitized(raw);
            '#' !in s && (s == "" || !IsTail(s[|s| - 1])) && forall i :: !MarkerAt(s, i, 'Z')
  {
    var cut := CutAtHash(raw);
    var m := FirstMarker(cut, 0);
    var s := Sanitized(raw);
    HashCut(raw);
    assert s == cut[..|s|] by { assert s <= cut[..m]; }
    forall i ensures !MarkerAt(s, i, 'Z') {
      if MarkerAt(s, i, 'Z') {
        MarkerInPrefix(cut, |s|, i, 'Z');
      }
    }
  }

  lemma SanitizedKeeps(name: string)
    requires Clean(name)
    ensures Sanitized(name) == name && !Leaked(name)
  {
  }

  lemma HereIsClean(line: string, pos: nat, f: Family)
    requires NameHere(line, pos, f).Emit?
    ensures InRange(f, NameHere(line, pos, f).index) && Clean(NameHere(line, pos, f).name)
  {
    var start := Marker(line, pos, f, NAME).value.1;
    SanitizedIsClean(RawName(line, start, f.prefix).value);
  }

  /** Whatever the line, only indices of the family and clean names are reported. */
  lemma {:induction false} OnlyCleanNames(line: string, pos: nat, f: Family)
    ensures forall k | 0 <= k < |NamesFrom(line, pos, f)| ::
              InRange(f, NamesFrom(line, pos, f)[k].0) && Clean(NamesFrom(line, pos, f)[k].1)
    decreases |line| - pos
  {
    if pos < |line| {
      var here := NameHere(line, pos, f);
      if here.Emit? { HereIsClean(line, pos, f); }
      OnlyCleanNames(line, here.to, f);
    }
  }

  // --- Round trip -------------------------------------------------------------------------

  function NameSegments(names: seq<(nat, string)>, f: Family): string {
    if names == [] then ""
    else MarkerText(f, names[0].0, NAME) + (Quoted(names[0].1) + NameSegments(names[1..], f))
  }

  function NameReply(names: seq<(nat, string)>, f: Family): string {
    "#" + MarkerText(f, 0, NAME) + NameSegments(names, f)
  }

  lemma QuotedNameAt(line: string, start: nat, prefix: char, name: string, rest: string)
    requires start <= |line| && line[start..] == Quoted(name) + rest && Clean(name)
    ensures start < |line| && line[start] == '"' && NameAfter(line, start, prefix) == Some(name) && !Leaked(name)
    ensures QuotedValueEnd(line, start) == start + |Quoted(name)| <= |line|
    ensures line[start + |Quoted(name)|..] == rest
  {
    QuotedHere(line, start, name, rest);
    SanitizedKeeps(name);
  }

  lemma NameSegmentAt(line: string, pos: nat, f: Family, index: nat, name: string, rest: string) returns (next: nat)
    requires pos <= |line| && line[pos..] == MarkerText(f, index, NAME) + (Quoted(name) + rest)
    requires Known(f) && InRange(f, index) && Clean(name)
    requires Keyword(f, NAME)
    ensures NameHere(line, pos, f) == Emit(index, name, next)
    ensures next <= |line| && line[next..] == rest
  {
    MarkerRoundTrip(line, pos, f, index, NAME, Quoted(name) + rest);
    var start := Marker(line, pos, f, NAME).value.1;
    QuotedNameAt(line, start, f.prefix, name, rest);
    next := start + |Quoted(name)|;
  }

  lemma NextName(line: string, pos: nat, names: seq<(nat, string)>, f: Family) returns (next: nat)
    requires pos <= |line| && line[pos..] == NameSegments(names, f) && names != []
    requires Known(f) && Keyword(f, NAME) && InRange(f, names[0].0) && Clean(names[0].1)
    ensures NameHere(line, pos, f) == Emit(names[0].0, names[0].1, next)
    ensures next <= |line| && line[next..] == NameSegments(names[1..], f)
  {
    next := NameSegmentAt(line, pos, f, names[0].0, names[0].1, NameSegments(names[1..], f));
  }

  lemma {:induction false} NameSegmentsParse(line: string, pos: nat, names: seq<(nat, string)>, f: Family)
    requires pos <= |line| && line[pos..] == NameSegments(names, f)
    requires Known(f) && Keyword(f, NAME)
    requires forall k | 0 <= k < |names| :: InRange(f, names[k].0) && Clean(names[k].1)
    ensures NamesFrom(line, pos, f) == names
    decreases |names|
  {
    if names != [] {
      var next := NextName(line, pos, names, f);
      NameSegmentsParse(line, next, names[1..], f);
      assert names == [(names[0].0, names[0].1)] + names[1..];
    }
  }

  lemma NoNameHere(line: string, pos: nat, f: Family)
    requires pos < |line| && Marker(line, pos, f, NAME) == None
    ensures NamesFrom(line, pos, f) == NamesFrom(line, pos + 1, f)
  {
  }

  lemma {:induction false} SkipNames(line: string, f: Family, pos: nat, end: nat)
    requires pos <= end <= |line| && forall p: nat | pos <= p < end :: Marker(line, p, f, NAME) == None
    ensures NamesFrom(line, pos, f) == NamesFrom(line, end, f)
    decreases end - pos
  {
    if pos < end {
      NoNameHere(line, pos, f);
      SkipNames(line, f, pos + 1, end);
    }
  }

  /**
   A bulk name reply parses back to the printed list, in order, exactly when every index is one of
   the family and every name is clean.
   */
  lemma NameBulkRoundTripIff(names: seq<(nat, string)>, f: Family)
    requires Known(f)
    ensures NamesFrom(NameReply(names, f), 0, f) == names <==>
            forall k | 0 <= k < |names| :: InRange(f, names[k].0) && Clean(names[k].1)
  {
    var head := "#" + MarkerText(f, 0, NAME);
    var segments := NameSegments(names, f);
    var line := NameReply(names, f);
    OnlyCleanNames(line, 0, f);
    if forall k | 0 <= k < |names| :: InRange(f, names[k].0) && Clean(names[k].1) {
      forall p: nat | p < |head| ensures Marker(line, p, f, NAME) == None {
        HeadHasNoMarker(line, f, NAME, segments, p);
      }
      SkipNames(line, f, 0, |head|);
      assert line[|head|..] == segments;
      NameSegmentsParse(line, |head|, names, f);
    }
  }
}
