/** Name replies without quotes: `#Z0NAME` and one `Z<i>NAME<name>` segment for each entry. */
module HifiBareNames {
  import opened Text
  import opened HifiQuoting
  import opened HifiBulk
  import opened HifiNames

  function BareSegments(names: seq<(nat, string)>, f: Family): string {
    if names == [] then ""
    else MarkerText(f, names[0].0, NAME) + (names[0].1 + BareSegments(names[1..], f))
  }

  function BareReply(names: seq<(nat, string)>, f: Family): string {
    "#" + MarkerText(f, 0, NAME) + BareSegments(names, f)
  }

  ghost predicate NoMarker(name: string, prefix: char) { forall i :: !MarkerAt(name, i, prefix) }

  // --- A bare name in a line --------------------------------------------------------------

  lemma {:induction false} BareIs(line: string, i: nat, e: nat, prefix: char)
    requires i <= e <= |line| && forall k | i <= k < e :: line[k] != '#' && !MarkerAt(line, k, prefix)
    requires e == |line| || line[e] == '#' || MarkerAt(line, e, prefix)
    ensures BareName(line, i, prefix) == line[i..e]
    decreases e - i
  {
    if i < e {
      BareIs(line, i + 1, e, prefix);
      assert line[i..e] == [line[i]] + line[i + 1..e];
    }
  }

  /** A bare name ends in front of the first marker, whatever the line. */
  lemma {:induction false} BareSpan(line: string, i: nat, prefix: char) returns (e: nat)
    requires i <= |line|
    ensures i <= e <= |line| && BareName(line, i, prefix) == line[i..e]
    ensures forall k | i <= k < e :: !MarkerAt(line, k, prefix)
    decreases |line| - i
  {
    if i == |line| || line[i] == '#' || MarkerAt(line, i, prefix) {
      e := i;
    } else {
      e := BareSpan(line, i + 1, prefix);
      assert line[i..e] == [line[i]] + line[i + 1..e];
    }
  }

  lemma MarkerMoves(a: string, b: string, at: nat, n: nat, i: nat, prefix: char)
    requires at + n <= |b| && n <= |a| && a[..n] == b[at..at + n] && i < n
    requires MarkerAt(a, i, prefix) && DigitsEnd(a, i + 1) + 4 <= n
    ensures MarkerAt(b, at + i, prefix)
  {
    var d := DigitsEnd(a, i + 1);
    assert forall k | 0 <= k < n :: b[at + k] == b[at..at + n][k] == a[k];
    DigitsEndIs(b, at + i + 1, at + d);
    assert b[at + d..at + d + 4] == a[d..d + 4];
  }

  lemma NotInName(c: char)
    requires c == 'Z' || c == 'S' || c == 'G'
    ensures c !in NAME && !IsDigit(c)
  {
  }

  lemma AtHasNo(line: string, d: nat, pat: string, c: char)
    requires At(line, d, pat) && c !in pat
    ensures forall e | d <= e < d + |pat| :: line[e] != c
  {
    forall e | d <= e < d + |pat| ensures line[e] != c { assert line[e] == line[d..d + |pat|][e - d]; }
  }

  /** The segment behind a name cannot complete a marker that the name begins. */
  lemma MarkerEndsInside(line: string, e: nat, k: nat, f: Family)
    requires Known(f) && e <= |line| && (e < |line| ==> line[e] == f.prefix)
    requires k < e && MarkerAt(line, k, f.prefix)
    ensures DigitsEnd(line, k + 1) + 4 <= e
  {
    NotInName(f.prefix);
    AtHasNo(line, DigitsEnd(line, k + 1), NAME, f.prefix);
  }

  lemma MarkersOfName(line: string, start: nat, name: string, f: Family)
    requires Known(f) && start + |name| <= |line| && line[start..start + |name|] == name
    requires start + |name| < |line| ==> line[start + |name|] == f.prefix
    requires NoMarker(name, f.prefix)
    ensures forall k | start <= k < start + |name| :: !MarkerAt(line, k, f.prefix)
  {
    forall k | start <= k < start + |name| ensures !MarkerAt(line, k, f.prefix) {
      if MarkerAt(line, k, f.prefix) {
        MarkerEndsInside(line, start + |name|, k, f);
        MarkerCopied(line, start, name, k - start, f.prefix);
      }
    }
  }

  lemma MarkerCopied(line: string, start: nat, name: string, i: nat, prefix: char)
    requires start + |name| <= |line| && line[start..start + |name|] == name && i < |name|
    requires MarkerAt(line, start + i, prefix) && DigitsEnd(line, start + i + 1) + 4 <= start + |name|
    ensures MarkerAt(name, i, prefix)
  {
    var d := DigitsEnd(line, start + i + 1);
    assert forall k | 0 <= k < |name| :: name[k] == line[start + k];
    DigitsEndIs(name, i + 1, d - start);
    assert name[d - start..d - start + 4] == line[d..d + 4];
  }

  // --- One segment ------------------------------------------------------------------------

  lemma BareReads(line: string, start: nat, name: string, rest: string, f: Family)
    requires Known(f) && start <= |line| && line[start..] == name + rest
    requires if rest == "" then true else MarkerAt(line, start + |name|, f.prefix) && line[start + |name|] == f.prefix
    requires Clean(name) && NoMarker(name, f.prefix) && '"' !in name
    ensures start < |line| && line[start] != '"' && NameAfter(line, start, f.prefix) == Some(name) && !Leaked(name)
    ensures Marker(line, start, f, NAME) == None
  {
    hide NameAfter, Sanitized, Marker, MarkerAt, Leaked, NoMarker, BareName;
    SliceAfter(line, start, name, rest);
    MarkersOfName(line, start, name, f);
    forall k | start <= k < start + |name| ensures line[k] != '#' && line[k] != '"' {
      assert line[k] == line[start..start + |name|][k - start] == name[k - start];
    }
    BareIs(line, start, start + |name|, f.prefix);
    SanitizedKeeps(name);
    NoneWithoutMarkerAt(line, start, f);
    NameIsRead(line, start, f.prefix, name);
  }

  lemma NameIsRead(line: string, start: nat, prefix: char, name: string)
    requires start < |line| && line[start] != '"' && BareName(line, start, prefix) == name && name != ""
    requires Sanitized(name) == name
    ensures NameAfter(line, start, prefix) == Some(name)
  {
  }

  lemma NoneWithoutMarkerAt(line: string, pos: nat, f: Family)
    requires !MarkerAt(line, pos, f.prefix)
    ensures Marker(line, pos, f, NAME) == None
  {
  }

  lemma MarkerTextAt(line: string, pos: nat, f: Family, index: nat, rest: string)
    requires Known(f) && pos <= |line| && line[pos..] == MarkerText(f, index, NAME) + rest
    ensures MarkerAt(line, pos, f.prefix)
  {
    var digits := Dec(index);
    MarkerPieces([f.prefix], digits, NAME, rest);
    SliceAfter(line, pos, [f.prefix], digits + (NAME + rest));
    assert (NAME + rest)[0] == 'N';
    DigitsInLine(line, pos + 1, digits, NAME + rest);
    SliceAfter(line, pos + 1, digits, NAME + rest);
    SliceAfter(line, pos + 1 + |digits|, NAME, rest);
    assert line[pos] == line[pos..pos + 1][0];
    assert line[pos + 1] == line[pos + 1..pos + 1 + |digits|][0];
  }

  /** The rest of a reply is empty or begins with a marker. */
  lemma RestBegins(line: string, at: nat, names: seq<(nat, string)>, f: Family)
    requires Known(f) && at <= |line| && line[at..] == BareSegments(names, f)
    ensures names == [] ==> BareSegments(names, f) == ""
    ensures names != [] ==> MarkerAt(line, at, f.prefix) && line[at] == f.prefix
  {
    if names != [] {
      MarkerTextAt(line, at, f, names[0].0, names[0].1 + BareSegments(names[1..], f));
    }
  }

  lemma NextBare(line: string, pos: nat, names: seq<(nat, string)>, f: Family) returns (next: nat)
    requires pos <= |line| && line[pos..] == BareSegments(names, f) && names != [] && Known(f)
    requires InRange(f, names[0].0) && Clean(names[0].1) && NoMarker(names[0].1, f.prefix) && '"' !in names[0].1
    ensures NameHere(line, pos, f) == Emit(names[0].0, names[0].1, next)
    ensures next <= |line| && line[next..] == BareSegments(names[1..], f)
  {
    hide Clean, NoMarker, NameAfter, Leaked, Marker, MarkerAt, NameHere;
    var index, name, rest := names[0].0, names[0].1, BareSegments(names[1..], f);
    MarkerRoundTrip(line, pos, f, index, NAME, name + rest);
    var start := pos + |MarkerText(f, index, NAME)|;
    SliceAfter(line, start, name, rest);
    RestBegins(line, start + |name|, names[1..], f);
    BareReads(line, start, name, rest, f);
    EmitsBare(line, pos, f, index, start, name);
    next := start + |name|;
  }

  lemma EmitsBare(line: string, pos: nat, f: Family, index: nat, start: nat, name: string)
    requires Marker(line, pos, f, NAME) == Some((index, start)) && Marker(line, start, f, NAME) == None
    requires start < |line| && line[start] != '"' && NameAfter(line, start, f.prefix) == Some(name) && !Leaked(name)
    ensures NameHere(line, pos, f) == Emit(index, name, start + |name|)
  {
  }

  // --- The whole reply --------------------------------------------------------------------

  lemma {:induction false} BareSegmentsParse(line: string, pos: nat, names: seq<(nat, string)>, f: Family)
    requires pos <= |line| && line[pos..] == BareSegments(names, f) && Known(f)
    requires forall k | 0 <= k < |names| :: InRange(f, names[k].0) && Clean(names[k].1) && NoMarker(names[k].1, f.prefix)
    requires forall k | 0 <= k < |names| :: '"' !in names[k].1
    ensures NamesFrom(line, pos, f) == names
    decreases |names|
  {
    hide Clean, NoMarker;
    if names != [] {
      var next := NextBare(line, pos, names, f);
      BareSegmentsParse(line, next, names[1..], f);
      assert names == [(names[0].0, names[0].1)] + names[1..];
    }
  }

  lemma {:induction false} NoQuotes(names: seq<(nat, string)>, f: Family)
    requires Known(f) && forall k | 0 <= k < |names| :: '"' !in names[k].1
    ensures '"' !in BareSegments(names, f)
  {
    if names != [] { NoQuotes(names[1..], f); }
  }

  /** From a line without quotes no name with a marker of its own family is read. */
  lemma HereHasNoMarker(line: string, pos: nat, f: Family)
    requires '"' !in line && NameHere(line, pos, f).Emit?
    ensures NoMarker(NameHere(line, pos, f).name, f.prefix)
  {
    hide Sanitized, BareName, Leaked, MarkerAt;
    var start := Marker(line, pos, f, NAME).value.1;
    var e := BareSpan(line, start, f.prefix);
    SanitizedIsPrefix(line[start..e]);
    PartHasNoMarker(line, start, e, NameHere(line, pos, f).name, f.prefix);
  }

  lemma PartHasNoMarker(line: string, start: nat, e: nat, name: string, prefix: char)
    requires start <= e <= |line| && name <= line[start..e]
    requires forall k | start <= k < e :: !MarkerAt(line, k, prefix)
    ensures NoMarker(name, prefix)
  {
    assert name == line[start..start + |name|];
    forall i ensures !MarkerAt(name, i, prefix) {
      if MarkerAt(name, i, prefix) { MarkerMoves(name, line, start, |name|, i, prefix); }
    }
  }

  lemma SanitizedIsPrefix(raw: string)
    ensures Sanitized(raw) <= raw
  {
  }

  lemma {:induction false} OnlyUnmarkedNames(line: string, pos: nat, f: Family)
    requires '"' !in line
    ensures forall k | 0 <= k < |NamesFrom(line, pos, f)| :: NoMarker(NamesFrom(line, pos, f)[k].1, f.prefix)
    decreases |line| - pos
  {
    hide NoMarker;
    if pos < |line| {
      var here := NameHere(line, pos, f);
      if here.Emit? { HereHasNoMarker(line, pos, f); }
      OnlyUnmarkedNames(line, here.to, f);
    }
  }

  /**
   A reply of names without quotes parses back to the printed list exactly when every index is one of the
   family, every name is clean, and no name holds a marker of the family.
   */
  lemma BareNameRoundTripIff(names: seq<(nat, string)>, f: Family)
    requires Known(f) && forall k | 0 <= k < |names| :: '"' !in names[k].1
    ensures NamesFrom(BareReply(names, f), 0, f) == names <==>
            forall k | 0 <= k < |names| ::
              InRange(f, names[k].0) && Clean(names[k].1) && NoMarker(names[k].1, f.prefix)
  {
    hide Clean, NoMarker, BareSegments, Marker;
    var head := "#" + MarkerText(f, 0, NAME);
    var segments := BareSegments(names, f);
    var line := BareReply(names, f);
    NoQuotes(names, f);
    OnlyCleanNames(line, 0, f);
    OnlyUnmarkedNames(line, 0, f);
    if forall k | 0 <= k < |names| :: InRange(f, names[k].0) && Clean(names[k].1) && NoMarker(names[k].1, f.prefix) {
      forall p: nat | p < |head| ensures Marker(line, p, f, NAME) == None {
        HeadHasNoMarker(line, f, NAME, segments, p);
      }
      SkipNames(line, f, 0, |head|);
      assert line[|head|..] == segments;
      BareSegmentsParse(line, |head|, names, f);
    }
  }
}
