/**
 Printed items survive the pipe: however the bytes are cut, the parser dispatches exactly the
 printed items, in order, also where an item with data runs into the next one without its closing tag.
 */
module MetadataFraming {
  import opened Text
  import opened Base64
  import opened MetadataStream

  // --- Printing ---------------------------------------------------------------------------

  /**
   An item as Shairport writes it: two hexadecimal codes, the payload, the base64 text chosen for it, and
   whether `</item>` follows; the gap is what stands before the next item.
   */
  datatype Printed = Printed(kind: string, code: string, payload: seq<Byte>, text: string, closed: bool, gap: string)

  predicate HexNumeral(s: string) {
    1 <= |s| <= 8 && forall i | 0 <= i < |s| :: IsHex(s[i])
  }

  /** Printed as an item is, whatever the data. */
  ghost predicate Shaped(p: Printed) {
    HexNumeral(p.kind) && HexNumeral(p.code) && |p.payload| < 0x1_0000_0000 &&
    '<' !in p.text && '<' !in p.gap && |p.gap| + 5 <= MAX_BUFFER &&
    (p.closed || (p.payload != [] && p.gap == ""))
  }

  /** The data encodes the payload. */
  ghost predicate Faithful(p: Printed) {
    Shaped(p) &&
    (p.payload != [] ==>
      exists pad :: NonSpace(p.text) == Encoded(p.payload) + pad && forall i | 0 <= i < |pad| :: pad[i] == '=')
  }

  function Body(p: Printed): seq<string> {
    if p.payload == [] then ["</length>"] else ["</length>\n", DATA_TAG + p.text, CLOSE_DATA]
  }

  function Front(p: Printed): seq<string> {
    [OPEN_ITEM, "<type>" + p.kind, "</type>", "<code>" + p.code, "</code>", "<length>" + Dec(|p.payload|)]
  }

  function Tail(p: Printed): seq<string> { if p.closed then [CLOSE_ITEM] else [] }

  /** The pieces of an item, each starting with its only `<`. */
  function Pieces(p: Printed): seq<string> { Front(p) + Body(p) + Tail(p) }

  function Print(p: Printed): string { Join(Pieces(p)) }

  /** The stream: a gap in front of every item. */
  function Stream(ps: seq<Printed>): string {
    if ps == [] then "" else Print(ps[0]) + (ps[0].gap + Stream(ps[1..]))
  }

  function MessageOf(p: Printed): Message
    requires HexNumeral(p.kind) && HexNumeral(p.code)
  {
    Message(HexValue(p.kind), HexValue(p.code), p.payload)
  }

  /** What a single item dispatches, damaged or not: nothing when its data is empty or not base64. */
  function Outcome(p: Printed): Option<Message>
    requires HexNumeral(p.kind) && HexNumeral(p.code)
  {
    if p.payload == [] then Some(MessageOf(p))
    else match Decoded(NonSpace(p.text), EMPTY)
      case None => None
      case Some(data) =>
        if data == [] then None
        else Some(MessageOf(p).(payload := if |data| > |p.payload| then data[..|p.payload|] else data))
  }

  /** An item that is not closed is followed by another. */
  ghost predicate AllShaped(ps: seq<Printed>) {
    forall i | 0 <= i < |ps| :: Shaped(ps[i]) && (ps[i].closed || i + 1 < |ps|)
  }

  function Outcomes(ps: seq<Printed>): seq<Message>
    requires forall i | 0 <= i < |ps| :: HexNumeral(ps[i].kind) && HexNumeral(ps[i].code)
  {
    if ps == [] then [] else AsList(Outcome(ps[0])) + Outcomes(ps[1..])
  }

  // --- Where a `<` can stand --------------------------------------------------------------

  lemma NumeralToken(tag: string, digits: string)
    requires Token(tag, '<') && (forall i | 0 <= i < |digits| :: IsHex(digits[i]))
    ensures Token(tag + digits, '<')
  {
  }

  lemma PiecesAreTokens(p: Printed)
    requires Shaped(p)
    ensures Tokens(Pieces(p), '<')
  {
    NumeralToken("<type>", p.kind);
    NumeralToken("<code>", p.code);
    NumeralToken("<length>", Dec(|p.payload|));
    assert Token(DATA_TAG + p.text, '<') by {
      var t := DATA_TAG + p.text;
      forall i | 1 <= i < |t| ensures t[i] != '<' {
        if i >= |DATA_TAG| { assert t[i] == p.text[i - |DATA_TAG|]; }
      }
    }
    assert Tokens(Front(p), '<') && Tokens(Body(p), '<') && Tokens(Tail(p), '<');
  }

  /** A `<` in joined tokens is the start of one of them. */
  lemma {:induction false} TokenStart(ts: seq<string>, i: nat) returns (k: nat)
    requires Tokens(ts, '<') && i < |Join(ts)| && Join(ts)[i] == '<'
    ensures k < |ts| && i == |Join(ts[..k])| && i + |ts[k]| <= |Join(ts)| && Join(ts)[i..i + |ts[k]|] == ts[k]
    ensures i + |ts[k]| < |Join(ts)| ==> k + 1 < |ts| && Join(ts)[i + |ts[k]|..] == Join(ts[k + 1..])
  {
    if i < |ts[0]| {
      k := 0;
    } else {
      k := TokenStart(ts[1..], i - |ts[0]|);
      JoinPrefix(ts, k);
      k := k + 1;
    }
  }

  lemma PieceHeads(p: Printed, k: nat)
    requires Shaped(p) && p.closed && k + 1 < |Pieces(p)|
    ensures var t := Pieces(p)[k];
            |t| >= 6 && !(t[1] == '/' && t[2] == 'i') && (k > 0 ==> t[1] != 'i') && (k == 0 ==> t == OPEN_ITEM)
    ensures var t := Pieces(p)[k];
            t[1] == '/' && t[2] == 'd' ==> t == CLOSE_DATA && k + 2 == |Pieces(p)|
    ensures Pieces(p)[|Pieces(p)| - 1] == CLOSE_ITEM
  {
  }

  lemma PrintEnds(p: Printed)
    requires p.closed
    ensures var x := Print(p);
            |x| >= 13 && x[|x| - 7..] == CLOSE_ITEM && x[..6] == OPEN_ITEM
            && x == Join(Front(p) + Body(p)) + CLOSE_ITEM
  {
    var most := Front(p) + Body(p);
    JoinAppend(most, [CLOSE_ITEM]);
    assert [CLOSE_ITEM][1..] == [];
    assert Join([CLOSE_ITEM]) == CLOSE_ITEM;
    assert most[0] == OPEN_ITEM;
    assert Join(most) == OPEN_ITEM + Join(most[1..]);
  }

  /** What follows a `<` inside a printed item, before its closing tag. */
  ghost predicate PlainOpening(x: string, i: nat)
    requires i + 9 <= |x|
  {
    !(x[i + 1] == '/' && x[i + 2] == 'i') && (i > 0 ==> x[i + 1] != 'i') &&
    (x[i + 1] == '/' && x[i + 2] == 'd' ==> i + 14 == |x| && x[i + 8] == '/')
  }

  /** The piece that starts at a `<` before the closing tag is not the closing tag. */
  lemma PieceAt(p: Printed, i: nat) returns (k: nat)
    requires Shaped(p) && p.closed && i + 7 < |Print(p)| && Print(p)[i] == '<'
    ensures k + 1 < |Pieces(p)| && (k == 0 <==> i == 0)
    ensures var t := Pieces(p)[k];
            i + |t| + 7 <= |Print(p)| && Print(p)[i..i + |t|] == t && Print(p)[i + |t|..] == Join(Pieces(p)[k + 1..])
  {
    var ts, last := Pieces(p), |Pieces(p)| - 1;
    PiecesAreTokens(p);
    k := TokenStart(ts, i);
    assert ts[last] == CLOSE_ITEM;
    PiecesApart(ts, k, last);
    JoinSnoc(ts, last);
    assert ts[..last + 1] == ts;
    if k > 0 { PiecesApart(ts, 0, k); }
    assert Join(ts[..0]) == "";
  }

  lemma Openings(p: Printed, i: nat)
    requires Shaped(p) && p.closed && i + 7 < |Print(p)| && Print(p)[i] == '<'
    ensures i + 9 <= |Print(p)| && PlainOpening(Print(p), i)
  {
    var x := Print(p);
    var k := PieceAt(p, i);
    var t := Pieces(p)[k];
    PieceHeads(p, k);
    assert x[i + 1] == x[i..i + |t|][1] && x[i + 2] == x[i..i + |t|][2];
    if t == CLOSE_DATA {
      CloseLast(p, k);
      assert x[i + 7..] == CLOSE_ITEM && x[i + 8] == x[i + 7..][1];
    }
  }

  lemma CloseLast(p: Printed, k: nat)
    requires p.closed && k + 2 == |Pieces(p)|
    ensures Join(Pieces(p)[k + 1..]) == CLOSE_ITEM
  {
  }

  // --- Framing one item -------------------------------------------------------------------

  /** One text is a beginning of the other. */
  ghost predicate Agrees(z: string, x: string) {
    forall i | 0 <= i < |z| && i < |x| :: z[i] == x[i]
  }

  lemma AtChars(z: string, i: nat, pat: string)
    requires |pat| >= 3
    ensures At(z, i, pat) ==> z[i] == pat[0] && z[i + 1] == pat[1] && z[i + 2] == pat[2]
    ensures At(z, i, pat) && |pat| > 8 ==> z[i + 8] == pat[8]
  {
  }

  /** Before the closing tag no pattern of the framing loop matches, whatever comes after. */
  lemma NothingBeforeClose(p: Printed, z: string, i: nat)
    requires Shaped(p) && p.closed && Agrees(z, Print(p)) && i + 7 < |Print(p)|
    ensures !At(z, i, CLOSE_ITEM)
    ensures i > 0 ==> !At(z, i, OPEN_ITEM)
    ensures !At(z, i, GLUED)
  {
    var x := Print(p);
    AtChars(z, i, CLOSE_ITEM);
    AtChars(z, i, OPEN_ITEM);
    AtChars(z, i, GLUED);
    if x[i] == '<' {
      Openings(p, i);
    }
  }

  lemma CloseAtEnd(p: Printed, z: string)
    requires p.closed && Agrees(z, Print(p)) && |z| >= |Print(p)| >= 7
    ensures At(z, |Print(p)| - 7, CLOSE_ITEM)
  {
    var x := Print(p);
    PrintEnds(p);
    assert z[|x| - 7..|x|] == x[|x| - 7..];
  }

  /** A closed item at the front of the buffer. */
  lemma WholeClosed(p: Printed, z: string)
    requires Shaped(p) && p.closed && Agrees(z, Print(p)) && |z| >= |Print(p)|
    ensures NextFrame(z) == Item(|Print(p)|)
  {
    var close := |Print(p)| - 7;
    PrintEnds(p);
    forall i | 0 <= i < close ensures !At(z, i, CLOSE_ITEM) && !At(z, i, GLUED) {
      NothingBeforeClose(p, z, i);
    }
    CloseAtEnd(p, z);
    FindIs(z, CLOSE_ITEM, 0, close);
  }

  lemma PartClosed(p: Printed, y: string)
    requires Shaped(p) && p.closed && Agrees(y, Print(p)) && 6 <= |y| < |Print(p)|
    ensures NextFrame(y) == Wait
  {
    var x := Print(p);
    PrintEnds(p);
    forall i | 0 <= i ensures !At(y, i, CLOSE_ITEM) && !At(y, i, GLUED) && (i > 0 ==> !At(y, i, OPEN_ITEM)) {
      if i + 7 < |x| {
        NothingBeforeClose(p, y, i);
      } else if i + 6 <= |y| {
        assert i == |x| - 7;
        AtChars(y, i, OPEN_ITEM);
        assert x[i + 1] == x[i..][1] == '/';
      }
    }
    FindIsNone(y, CLOSE_ITEM, 0);
    FindIsNone(y, GLUED, 0);
    FindIsNone(y, OPEN_ITEM, 6);
  }

  // --- An item that runs into the next ----------------------------------------------------

  /** The same item with its closing tag. */
  function Shut(p: Printed): Printed { p.(closed := true) }

  /** What must have arrived for the item to be cut off: itself, and the next opening tag unless it is closed. */
  function Reach(p: Printed): string { Print(p) + if p.closed then "" else OPEN_ITEM }

  lemma OpenPrint(p: Printed)
    requires Shaped(p) && !p.closed
    ensures Shaped(Shut(p)) && Print(Shut(p)) == Print(p) + CLOSE_ITEM
    ensures |Print(p)| >= 13 && Print(p)[|Print(p)| - 7..] == CLOSE_DATA && Print(p)[..6] == OPEN_ITEM
  {
    var x, most := Print(p), Front(p) + Body(p)[..2];
    assert Pieces(Shut(p)) == Pieces(p) + [CLOSE_ITEM];
    JoinAppend(Pieces(p), [CLOSE_ITEM]);
    JoinTwo("", CLOSE_ITEM);
    assert Pieces(p) == most + [CLOSE_DATA];
    JoinAppend(most, [CLOSE_DATA]);
    JoinTwo("", CLOSE_DATA);
    assert x == Join(most) + CLOSE_DATA;
    PrintEnds(Shut(p));
    assert |Join(most)| >= 6 by { assert most[0] == OPEN_ITEM && Join(most) == OPEN_ITEM + Join(most[1..]); }
    assert x[..6] == (x + CLOSE_ITEM)[..6];
  }

  /** Before the end of its data no pattern of the framing loop matches. */
  lemma NothingBeforeData(p: Printed, z: string, i: nat)
    requires Shaped(p) && !p.closed && Agrees(z, Reach(p)) && i + 7 < |Print(p)|
    ensures !At(z, i, CLOSE_ITEM) && !At(z, i, GLUED)
    ensures i > 0 ==> !At(z, i, OPEN_ITEM)
  {
    var x := Print(Shut(p));
    OpenPrint(p);
    AtChars(z, i, CLOSE_ITEM);
    AtChars(z, i, OPEN_ITEM);
    AtChars(z, i, GLUED);
    if x[i] == '<' {
      Openings(Shut(p), i);
    }
  }

  /** In the last tag of its data only the joint with the next item matches. */
  lemma NothingInData(p: Printed, z: string, i: nat)
    requires Shaped(p) && !p.closed && Agrees(z, Reach(p)) && |Print(p)| - 7 <= i < |Print(p)|
    ensures !At(z, i, CLOSE_ITEM) && !At(z, i, OPEN_ITEM) && (i > |Print(p)| - 7 ==> !At(z, i, GLUED))
  {
    var x := Print(p);
    OpenPrint(p);
    AtChars(z, i, CLOSE_ITEM);
    AtChars(z, i, OPEN_ITEM);
    AtChars(z, i, GLUED);
    assert Reach(p)[i] == x[|x| - 7..][i - (|x| - 7)];
    if i == |x| - 7 {
      assert Reach(p)[i + 1] == x[|x| - 7..][1] && Reach(p)[i + 2] == x[|x| - 7..][2];
    }
  }

  lemma JointAt(p: Printed, z: string)
    requires Shaped(p) && !p.closed && Agrees(z, Reach(p)) && |z| >= |Reach(p)|
    ensures |Print(p)| >= 7 && At(z, |Print(p)| - 7, GLUED)
  {
    var x, at := Print(p), |Print(p)| - 7;
    OpenPrint(p);
    assert Reach(p)[at..] == x[at..] + OPEN_ITEM == GLUED;
    assert z[at..at + 13] == Reach(p)[at..];
  }

  lemma WholeOpen(p: Printed, z: string)
    requires Shaped(p) && !p.closed && Agrees(z, Reach(p)) && |z| >= |Reach(p)|
    ensures NextFrame(z) == Item(|Print(p)|)
  {
    var at := |Print(p)| - 7;
    OpenPrint(p);
    forall i | 0 <= i < at ensures !At(z, i, CLOSE_ITEM) && !At(z, i, GLUED) {
      NothingBeforeData(p, z, i);
    }
    NothingInData(p, z, at);
    JointAt(p, z);
    FindIs(z, GLUED, 0, at);
  }

  lemma PartOpen(p: Printed, y: string)
    requires Shaped(p) && !p.closed && Agrees(y, Reach(p)) && 6 <= |y| < |Reach(p)|
    ensures NextFrame(y) == Wait
  {
    OpenPrint(p);
    forall i | 0 <= i ensures !At(y, i, CLOSE_ITEM) && !At(y, i, GLUED) && (i > 0 ==> !At(y, i, OPEN_ITEM)) {
      if i + 7 < |Print(p)| {
        NothingBeforeData(p, y, i);
      } else if i < |Print(p)| {
        NothingInData(p, y, i);
      }
    }
    FindIsNone(y, CLOSE_ITEM, 0);
    FindIsNone(y, GLUED, 0);
    FindIsNone(y, OPEN_ITEM, 6);
  }

  /** An item that has arrived with what ends it is cut off exactly. */
  lemma WholeItem(p: Printed, z: string)
    requires Shaped(p) && Agrees(z, Reach(p)) && |z| >= |Reach(p)|
    ensures NextFrame(z) == Item(|Print(p)|)
  {
    if p.closed {
      assert Reach(p) == Print(p);
      WholeClosed(p, z);
    } else {
      WholeOpen(p, z);
    }
  }

  /** Anything less waits for the rest. */
  lemma PartOfItem(p: Printed, y: string)
    requires Shaped(p) && Agrees(y, Reach(p)) && 6 <= |y| < |Reach(p)|
    ensures NextFrame(y) == Wait
  {
    if p.closed {
      assert Reach(p) == Print(p);
      PartClosed(p, y);
    } else {
      PartOpen(p, y);
    }
  }

  // --- Reading one item back --------------------------------------------------------------

  lemma JoinSix(a: string, b: string, c: string, d: string, e: string, f: string)
    ensures Join([a, b, c, d, e, f]) == a + (b + (c + (d + (e + f))))
  {
    JoinTwo(e, f);
    JoinFirst(d, [e, f]);
    JoinFirst(c, [d, e, f]);
    JoinFirst(b, [c, d, e, f]);
    JoinFirst(a, [b, c, d, e, f]);
  }

  lemma JoinFirst(t: string, ts: seq<string>)
    ensures Join([t] + ts) == t + Join(ts)
  {
  }

  lemma JoinTwo(a: string, b: string)
    ensures Join([a, b]) == a + b && Join([b]) == b
  {
  }

  /** The header, laid out the way it is scanned. */
  lemma Layout(p: Printed) returns (rest: string)
    ensures rest == Join(Body(p) + Tail(p)) && rest != "" && rest[0] == '<'
    ensures Print(p) == "<item><type>" + (p.kind + ("</type><code>" + (p.code +
                        ("</code><length>" + (Dec(|p.payload|) + rest)))))
  {
    rest := Join(Body(p) + Tail(p));
    assert Pieces(p) == Front(p) + (Body(p) + Tail(p));
    JoinAppend(Front(p), Body(p) + Tail(p));
    JoinSix(OPEN_ITEM, "<type>" + p.kind, "</type>", "<code>" + p.code, "</code>", "<length>" + Dec(|p.payload|));
    Regroup(p.kind, p.code, Dec(|p.payload|), rest);
    RestStarts(p);
  }

  lemma RestStarts(p: Printed)
    ensures Join(Body(p) + Tail(p)) != "" && Join(Body(p) + Tail(p))[0] == '<'
  {
  }

  lemma Regroup(k: string, c: string, n: string, rest: string)
    ensures "<item>" + ("<type>" + k + ("</type>" + ("<code>" + c + ("</code>" + ("<length>" + n))))) + rest ==
            "<item><type>" + (k + ("</type><code>" + (c + ("</code><length>" + (n + rest)))))
  {
  }

  lemma HexEndInLine(s: string, i: nat, digits: string, rest: string)
    requires i <= |s| && s[i..] == digits + rest && HexNumeral(digits) && rest != "" && !IsHex(rest[0])
    ensures i + |digits| <= |s| && s[i..i + |digits|] == digits && s[i + |digits|..] == rest
    ensures HexEnd(s, i, 8) == i + |digits|
  {
  }

  lemma NoBlank(s: string, i: nat, digits: string)
    requires digits != "" && (IsHex(digits[0]) || IsDigit(digits[0]))
    requires i + |digits| <= |s| && s[i..i + |digits|] == digits
    ensures SkipBlanks(s, i) == i
  {
  }

  /** A tag and the hexadecimal number behind it. */
  lemma TagThenHex(s: string, i: nat, tag: string, digits: string, rest: string) returns (end: nat)
    requires i <= |s| && s[i..] == tag + (digits + rest)
    requires HexNumeral(digits) && rest != "" && !IsHex(rest[0])
    ensures end <= |s| && s[end..] == rest && TaggedHex(s, i, tag) == Some((HexValue(digits), end))
  {
    SliceAfter(s, i, tag, digits + rest);
    var from := i + |tag|;
    HexEndInLine(s, from, digits, rest);
    NoBlank(s, from, digits);
    end := from + |digits|;
  }

  /** The length may be any number: it saturates at 64 bits and keeps the lower 32 of them. */
  lemma TagThenDecimal(s: string, i: nat, tag: string, n: nat, rest: string)
    requires i <= |s| && s[i..] == tag + (Dec(n) + rest)
    requires rest != "" && !IsDigit(rest[0])
    ensures TaggedUnsigned(s, i, tag) ==
            Some(if n < 0x1_0000_0000_0000_0000 then n % 0x1_0000_0000 else 0xFFFF_FFFF)
  {
    SliceAfter(s, i, tag, Dec(n) + rest);
    var from := i + |tag|;
    DigitsInLine(s, from, Dec(n), rest);
    NoBlank(s, from, Dec(n));
    ValueDec(n);
  }

  lemma TagThenLength(s: string, i: nat, tag: string, n: nat, rest: string)
    requires i <= |s| && s[i..] == tag + (Dec(n) + rest)
    requires n < 0x1_0000_0000 && rest != "" && !IsDigit(rest[0])
    ensures TaggedUnsigned(s, i, tag) == Some(n)
  {
    TagThenDecimal(s, i, tag, n, rest);
  }

  lemma {:induction false} SkipsBlanks(s: string, i: nat, k: nat)
    requires i <= k <= |s| && forall j | i <= j < k :: IsSpace(s[j])
    ensures SkipBlanks(s, i) == SkipBlanks(s, k)
    decreases k - i
  {
    if i < k { SkipsBlanks(s, i + 1, k); }
  }

  /** Blanks in front of a number are skipped. */
  lemma BlanksAreSkipped(s: string, i: nat, k: nat)
    requires i <= k <= |s| && forall j | i <= j < k :: IsSpace(s[j])
    ensures ReadHex(s, i) == ReadHex(s, k) && ReadUnsigned(s, i) == ReadUnsigned(s, k)
  {
    hide SkipBlanks, HexEnd, DigitsEnd, IsSpace;
    SkipsBlanks(s, i, k);
  }

  /** Whatever stands behind the header. */
  lemma HeaderReads(s: string, kind: string, code: string, n: nat, rest: string)
    requires HexNumeral(kind) && HexNumeral(code) && n < 0x1_0000_0000 && rest != "" && rest[0] == '<'
    requires s == "<item><type>" + (kind + ("</type><code>" + (code + ("</code><length>" + (Dec(n) + rest)))))
    ensures ParseHeader(s) == Some(Header(HexValue(kind), HexValue(code), n))
  {
    var third := "</code><length>" + (Dec(n) + rest);
    var second := "</type><code>" + (code + third);
    assert s[0..] == s;
    var i := TagThenHex(s, 0, "<item><type>", kind, second);
    var j := TagThenHex(s, i, "</type><code>", code, third);
    TagThenLength(s, j, "</code><length>", n, rest);
  }

  lemma HeaderParses(p: Printed)
    requires Shaped(p)
    ensures ParseHeader(Print(p)) == Some(Header(HexValue(p.kind), HexValue(p.code), |p.payload|))
  {
    var rest := Layout(p);
    HeaderReads(Print(p), p.kind, p.code, |p.payload|, rest);
  }

  lemma DataPiece(p: Printed)
    requires p.payload != []
    ensures FirstWith(Pieces(p), DATA_TAG) == Some(7)
    ensures |Pieces(p)| >= 9 && Pieces(p)[7] == DATA_TAG + p.text && Pieces(p)[8..] == [CLOSE_DATA] + Tail(p)
  {
    var ts := Pieces(p);
    assert DATA_TAG <= ts[7];
    forall k | 0 <= k < 7 ensures !(DATA_TAG <= ts[k]) {
      assert ts[k] == if k < 6 then Front(p)[k] else Body(p)[0];
      NotData(ts[k]);
    }
    FirstWithIs(ts, DATA_TAG, 7);
  }

  /** Where the data of an item stands. */
  lemma DataAt(p: Printed) returns (start: nat)
    requires Shaped(p) && p.payload != []
    ensures start >= |DATA_TAG| && Find(Print(p), DATA_TAG, 0) == Some(start - |DATA_TAG|)
    ensures start <= |Print(p)| && Print(p)[start..] == p.text + (CLOSE_DATA + Join(Tail(p)))
  {
    var ts, after := Pieces(p), p.text + (CLOSE_DATA + Join(Tail(p)));
    DataPiece(p);
    PiecesAreTokens(p);
    FindInTokens(ts, '<', DATA_TAG);
    JoinAround(ts, 7);
    JoinFirst(CLOSE_DATA, Tail(p));
    Joins(DATA_TAG, p.text, CLOSE_DATA + Join(Tail(p)));
    start := |Join(ts[..7])| + |DATA_TAG|;
    AfterPrefix(Join(ts[..7]), DATA_TAG + after);
    SliceAfter(Print(p), start - |DATA_TAG|, DATA_TAG, after);
  }

  lemma AfterPrefix(a: string, b: string)
    ensures (a + b)[|a|..] == b
  {
  }

  lemma NotData(t: string)
    requires |t| >= 2 && t[1] != 'd'
    ensures !(DATA_TAG <= t)
  {
  }

  lemma FindCloseData(x: string, start: nat, text: string, tail: string)
    requires start <= |x| && x[start..] == text + (CLOSE_DATA + tail) && '<' !in text
    ensures Find(x, CLOSE_DATA, start) == Some(start + |text|)
    ensures start + |text| <= |x| && x[start..start + |text|] == text
  {
    SliceAfter(x, start, text, CLOSE_DATA + tail);
    SliceAfter(x, start + |text|, CLOSE_DATA, tail);
    forall i | start <= i < start + |text| ensures !At(x, i, CLOSE_DATA) {
      AtChars(x, i, CLOSE_DATA);
      assert x[i] == x[start..start + |text|][i - start];
    }
    FindIs(x, CLOSE_DATA, start, start + |text|);
  }

  lemma {:induction false} BreaksAreBlanks(s: string)
    ensures NonSpace(WithoutBreaks(s)) == NonSpace(s)
  {
    if s != "" {
      var rest := WithoutBreaks(s[1..]);
      BreaksAreBlanks(s[1..]);
      if s[0] == '\n' || s[0] == '\r' {
        Joins("", rest, "");
        Joins("", NonSpace(s[1..]), "");
        assert IsSpace(s[0]);
      } else {
        NonSpaceFirst(s[0], rest);
      }
    }
  }

  lemma NonSpaceFirst(c: char, s: string)
    ensures NonSpace([c] + s) == (if IsSpace(c) then "" else [c]) + NonSpace(s)
  {
  }

  lemma BreaksDoNotMatter(text: string)
    ensures DecodedPayload(WithoutBreaks(text)) == Decoded(NonSpace(text), EMPTY)
  {
    BreaksAreBlanks(text);
    assert Decoded(NonSpace(""), EMPTY) == Some([]);
  }

  lemma PayloadDecodes(p: Printed)
    requires Faithful(p) && p.payload != []
    ensures Decoded(NonSpace(p.text), EMPTY) == Some(p.payload)
  {
    var pad :| NonSpace(p.text) == Encoded(p.payload) + pad && forall i | 0 <= i < |pad| :: pad[i] == '=';
    DecodeUndoesEncode(p.payload, p.text, pad);
  }

  lemma FaithfulOutcome(p: Printed)
    requires Faithful(p)
    ensures Outcome(p) == Some(MessageOf(p))
  {
    if p.payload != [] { PayloadDecodes(p); }
  }

  lemma ExtractsText(x: string, start: nat, text: string, tail: string)
    requires start <= |x| && x[start..] == text + (CLOSE_DATA + tail) && '<' !in text
    ensures ExtractFrom(x, start) == DecodedPayload(WithoutBreaks(text))
  {
    FindCloseData(x, start, text, tail);
    ExtractIs(x, start, start + |text|);
  }

  lemma ExtractIs(x: string, start: nat, end: nat)
    requires Find(x, CLOSE_DATA, start) == Some(end) && start <= end <= |x|
    ensures ExtractFrom(x, start) == DecodedPayload(WithoutBreaks(x[start..end]))
  {
  }

  lemma DataParses(p: Printed)
    requires Shaped(p) && p.payload != []
    ensures ExtractPayload(Print(p)) == Decoded(NonSpace(p.text), EMPTY) && Find(Print(p), DATA_TAG, 0).Some?
  {
    var start := DataAt(p);
    ExtractsText(Print(p), start, p.text, Join(Tail(p)));
    BreaksDoNotMatter(p.text);
  }

  lemma PayloadParses(p: Printed)
    requires Faithful(p) && p.payload != []
    ensures ExtractPayload(Print(p)) == Some(p.payload) && Find(Print(p), DATA_TAG, 0).Some?
  {
    DataParses(p);
    PayloadDecodes(p);
  }

  lemma NoData(xml: string, h: Header)
    requires ParseHeader(xml) == Some(h) && h.length == 0
    ensures ProcessItem(xml) == Some(Message(h.kind, h.code, []))
  {
  }

  /** A payload longer than declared is cut. */
  lemma WithData(xml: string, h: Header, payload: seq<Byte>)
    requires ParseHeader(xml) == Some(h) && h.length > 0 && Find(xml, DATA_TAG, 0).Some?
    requires ExtractPayload(xml) == Some(payload) && payload != []
    ensures ProcessItem(xml) ==
            Some(Message(h.kind, h.code, if |payload| > h.length then payload[..h.length] else payload))
  {
  }

  /** Data that is empty or cannot be decoded dispatches nothing. */
  lemma WithoutData(xml: string, h: Header)
    requires ParseHeader(xml) == Some(h) && h.length > 0 && Find(xml, DATA_TAG, 0).Some?
    requires ExtractPayload(xml) == None || ExtractPayload(xml) == Some([])
    ensures ProcessItem(xml) == None
  {
  }

  /** A printed item is processed to what its data decodes to, cut to the declared length. */
  lemma ItemOutcome(p: Printed)
    requires Shaped(p)
    ensures ProcessItem(Print(p)) == Outcome(p)
  {
    var h := Header(HexValue(p.kind), HexValue(p.code), |p.payload|);
    HeaderParses(p);
    if p.payload == [] {
      NoData(Print(p), h);
    } else {
      DataParses(p);
      var data := Decoded(NonSpace(p.text), EMPTY);
      if data.Some? && data.value != [] {
        WithData(Print(p), h, data.value);
      } else {
        WithoutData(Print(p), h);
      }
    }
  }

  lemma ItemParses(p: Printed)
    requires Faithful(p)
    ensures ProcessItem(Print(p)) == Some(MessageOf(p))
  {
    ItemOutcome(p);
    FaithfulOutcome(p);
  }

  // --- Chunks -----------------------------------------------------------------------------

  /** What can stand in front of an item: nothing that opens a tag, and short enough to be kept. */
  ghost predicate Gap(g: string) { '<' !in g && |g| + 5 <= MAX_BUFFER }

  lemma NoItemInGap(g: string, z: string)
    requires '<' !in g && |z| < |g| + 6 && Agrees(z, g)
    ensures Find(z, OPEN_ITEM, 0) == None
  {
    forall i: nat ensures !At(z, i, OPEN_ITEM) {
      AtChars(z, i, OPEN_ITEM);
      if i < |g| && i < |z| { assert z[i] == g[i]; }
    }
    FindIsNone(z, OPEN_ITEM, 0);
  }

  lemma ItemAfterGap(g: string, rest: string, z: string)
    requires '<' !in g && |z| >= |g| + 6 && Agrees(z, g + rest) && |rest| >= 6 && rest[..6] == OPEN_ITEM
    ensures Find(z, OPEN_ITEM, 0) == Some(|g|)
  {
    forall i | 0 <= i < |g| ensures !At(z, i, OPEN_ITEM) {
      AtChars(z, i, OPEN_ITEM);
      assert z[i] == (g + rest)[i];
    }
    assert z[|g|..|g| + 6] == rest[..6];
    FindIs(z, OPEN_ITEM, 0, |g|);
  }

  lemma SplitAt(b: string, u: string, a: string, c: string)
    requires b + u == a + c && |b| >= |a|
    ensures b[..|a|] == a && b[|a|..] + u == c
  {
    assert c == (a + c)[|a|..];
    assert b == (b + u)[..|b|];
    assert a == (a + c)[..|a|];
  }

  lemma AgreesPart(b: string, u: string, whole: string)
    requires b + u == whole
    ensures Agrees(b, whole)
  {
  }

  lemma AgreesPrefix(z: string, x: string, y: string)
    requires Agrees(z, x + y)
    ensures Agrees(z, x)
  {
  }

  lemma KeepsGap(b: string)
    requires Find(b, OPEN_ITEM, 0) == None && |b| <= MAX_BUFFER
    ensures Processed(b, true) == (b, [])
  {
  }

  lemma KeepsPart(b: string, k: nat)
    requires Find(b, OPEN_ITEM, 0) == Some(k) && k <= |b| && NextFrame(b[k..]) == Wait
    ensures Processed(b, true) == (b[k..], [])
  {
  }

  lemma TakesItem(b: string, k: nat, end: nat)
    requires Find(b, OPEN_ITEM, 0) == Some(k) && k <= |b| && NextFrame(b[k..]) == Item(end) && end <= |b[k..]|
    ensures Processed(b, true).0 == Processed(b[k..][end..], true).0
    ensures Processed(b, true).1 == AsList(ProcessItem(b[k..][..end])) + Processed(b[k..][end..], true).1
  {
  }

  lemma PrintStarts(p: Printed)
    ensures |Print(p)| >= 6 && Print(p)[..6] == OPEN_ITEM
  {
    assert Pieces(p)[0] == OPEN_ITEM;
    assert Print(p) == OPEN_ITEM + Join(Pieces(p)[1..]);
  }

  lemma StreamStarts(ps: seq<Printed>)
    requires ps != []
    ensures |Stream(ps)| >= 6 && Stream(ps)[..6] == OPEN_ITEM
  {
    PrintStarts(ps[0]);
    assert Stream(ps)[..6] == Print(ps[0])[..6];
  }

  /** The stream goes on with what the first item needs behind it. */
  lemma StreamReaches(ps: seq<Printed>) returns (rest: string)
    requires AllShaped(ps) && ps != []
    ensures Stream(ps) == Reach(ps[0]) + rest
  {
    if ps[0].closed {
      rest := ps[0].gap + Stream(ps[1..]);
      assert Reach(ps[0]) == Print(ps[0]);
    } else {
      StreamStarts(ps[1..]);
      rest := Stream(ps[1..])[6..];
      assert Stream(ps[1..]) == OPEN_ITEM + rest;
      assert "" + Stream(ps[1..]) == Stream(ps[1..]);
      Joins(Print(ps[0]), OPEN_ITEM, rest);
    }
  }

  /** The buffer holds no whole item: nothing is dispatched, and only the gap can go. */
  lemma NoWholeItem(b: string, u: string, gap: string, ps: seq<Printed>) returns (g: string)
    requires Gap(gap) && AllShaped(ps) && b + u == gap + Stream(ps)
    requires ps == [] || |b| < |gap| + |Reach(ps[0])|
    ensures Gap(g) && Processed(b, true).0 + u == g + Stream(ps) && Processed(b, true).1 == []
    ensures u == "" ==> ps == []
  {
    AgreesPart(b, u, gap + Stream(ps));
    if ps == [] || |b| < |gap| + 6 {
      AgreesPrefix(b, gap, Stream(ps));
      NoItemInGap(gap, b);
      KeepsGap(b);
      g := gap;
      if ps != [] { StreamStarts(ps); }
    } else {
      StreamStarts(ps);
      ItemAfterGap(gap, Stream(ps), b);
      SplitAt(b, u, gap, Stream(ps));
      AgreesPart(b[|gap|..], u, Stream(ps));
      var rest := StreamReaches(ps);
      AgreesPrefix(b[|gap|..], Reach(ps[0]), rest);
      PartOfItem(ps[0], b[|gap|..]);
      KeepsPart(b, |gap|);
      g := "";
      Joins("", Stream(ps), "");
    }
  }

  /** The buffer starts with a whole item: it is dispatched, and the loop goes on behind it. */
  lemma OneItem(b: string, u: string, gap: string, ps: seq<Printed>) returns (t: string)
    requires Gap(gap) && AllShaped(ps) && b + u == gap + Stream(ps)
    requires ps != [] && |b| >= |gap| + |Reach(ps[0])|
    ensures t + u == ps[0].gap + Stream(ps[1..]) && |t| < |b|
    ensures Processed(b, true).0 == Processed(t, true).0
    ensures Processed(b, true).1 == AsList(Outcome(ps[0])) + Processed(t, true).1
  {
    var x, after := Print(ps[0]), ps[0].gap + Stream(ps[1..]);
    StreamStarts(ps);
    PrintStarts(ps[0]);
    AgreesPart(b, u, gap + Stream(ps));
    ItemAfterGap(gap, Stream(ps), b);
    SplitAt(b, u, gap, Stream(ps));
    var z := b[|gap|..];
    AgreesPart(z, u, Stream(ps));
    var rest := StreamReaches(ps);
    AgreesPrefix(z, Reach(ps[0]), rest);
    WholeItem(ps[0], z);
    SplitAt(z, u, x, after);
    t := z[|x|..];
    ItemOutcome(ps[0]);
    TakesItem(b, |gap|, |x|);
  }

  lemma OutcomesSplit(ps: seq<Printed>, now: seq<Message>, m: nat)
    requires AllShaped(ps) && m < |ps| && AllShaped(ps[1..])
    requires Outcomes(ps[1..]) == now + Outcomes(ps[1..][m..])
    ensures ps[1..][m..] == ps[m + 1..] && Outcomes(ps) == AsList(Outcome(ps[0])) + now + Outcomes(ps[m + 1..])
  {
  }

  /** One call of the framing loop dispatches exactly the items that have arrived completely. */
  lemma {:induction false} OneChunk(b: string, u: string, gap: string, ps: seq<Printed>) returns (n: nat, g: string)
    requires Gap(gap) && AllShaped(ps) && b + u == gap + Stream(ps)
    ensures n <= |ps| && Gap(g) && Processed(b, true).0 + u == g + Stream(ps[n..])
    ensures Outcomes(ps) == Processed(b, true).1 + Outcomes(ps[n..])
    ensures u == "" ==> n == |ps|
    decreases |ps|
  {
    if ps == [] || |b| < |gap| + |Reach(ps[0])| {
      g := NoWholeItem(b, u, gap, ps);
      n := 0;
      assert ps[0..] == ps;
      Joins([], Outcomes(ps), []);
    } else {
      var t := OneItem(b, u, gap, ps);
      var m: nat;
      m, g := OneChunk(t, u, ps[0].gap, ps[1..]);
      n := m + 1;
      OutcomesSplit(ps, Processed(t, true).1, m);
    }
  }

  /** The calls of `feed`, one per chunk read from the pipe: what stays buffered, and what was dispatched. */
  function Fed(buffer: string, chunks: seq<string>): (string, seq<Message>)
    decreases |chunks|
  {
    if chunks == [] then (buffer, [])
    else
      var (b, now) := Processed(buffer + chunks[0], true);
      var (left, later) := Fed(b, chunks[1..]);
      (left, now + later)
  }

  lemma {:induction false} FedStream(buffer: string, chunks: seq<string>, gap: string, ps: seq<Printed>)
    requires Gap(gap) && AllShaped(ps) && buffer + Join(chunks) == gap + Stream(ps)
    requires chunks == [] ==> ps == []
    ensures Fed(buffer, chunks).1 == Outcomes(ps) && Gap(Fed(buffer, chunks).0)
    decreases |chunks|
  {
    if chunks != [] {
      Joins(buffer, chunks[0], Join(chunks[1..]));
      var n, g := OneChunk(buffer + chunks[0], Join(chunks[1..]), gap, ps);
      FedStream(Processed(buffer + chunks[0], true).0, chunks[1..], g, ps[n..]);
    } else {
      assert Stream(ps) == "" && Join(chunks) == "";
      assert buffer == buffer + "" == gap + "" == gap;
    }
  }

  /**
   However the bytes of a stream of items are cut into chunks, the parser dispatches what each item comes to by
   itself, in order: an item whose data is damaged, or longer than declared, does not disturb the others.
   */
  lemma AnyCutDispatchesOutcomes(chunks: seq<string>, lead: string, ps: seq<Printed>)
    requires Gap(lead) && AllShaped(ps) && Join(chunks) == lead + Stream(ps)
    ensures Fed("", chunks).1 == Outcomes(ps) && Gap(Fed("", chunks).0)
  {
    Joins("", Join(chunks), "");
    if ps != [] { StreamStarts(ps); }
    FedStream("", chunks, lead, ps);
  }

  lemma {:induction false} FaithfulOutcomes(ps: seq<Printed>)
    requires AllShaped(ps) && forall i | 0 <= i < |ps| :: Faithful(ps[i])
    ensures |Outcomes(ps)| == |ps| && forall i | 0 <= i < |ps| :: Outcomes(ps)[i] == MessageOf(ps[i])
  {
    if ps != [] {
      FaithfulOutcome(ps[0]);
      forall i | 0 <= i < |ps[1..]| ensures Faithful(ps[1..][i]) { assert Faithful(ps[i + 1]); }
      FaithfulOutcomes(ps[1..]);
      assert AsList(Outcome(ps[0])) == [MessageOf(ps[0])];
    }
  }

  /**
   With data that encodes the payloads, exactly one message an item is dispatched, with the codes and the
   payload it was printed from. An item with data may lack its closing tag when the next one follows at once.
   */
  lemma AnyCutDispatchesItems(chunks: seq<string>, lead: string, ps: seq<Printed>)
    requires Gap(lead) && AllShaped(ps) && Join(chunks) == lead + Stream(ps)
    requires forall i | 0 <= i < |ps| :: Faithful(ps[i])
    ensures var (left, dispatched) := Fed("", chunks);
            && |dispatched| == |ps|
            && (forall i | 0 <= i < |ps| ::
                 dispatched[i] == Message(HexValue(ps[i].kind), HexValue(ps[i].code), ps[i].payload))
            && Gap(left)
  {
    AnyCutDispatchesOutcomes(chunks, lead, ps);
    FaithfulOutcomes(ps);
  }

  // --- An opening tag that is never closed ------------------------------------------------

  lemma NothingBehindOpening(p: Printed, i: nat)
    requires Shaped(p) && p.closed && i + 1 < |Print(p)|
    ensures !At(OPEN_ITEM + Print(p), i, CLOSE_ITEM) && !At(OPEN_ITEM + Print(p), i, GLUED)
  {
    var x, z := Print(p), OPEN_ITEM + Print(p);
    if i >= 6 {
      AtShift(OPEN_ITEM, x, i, CLOSE_ITEM);
      AtShift(OPEN_ITEM, x, i, GLUED);
      NothingBeforeClose(p, x, i - 6);
    } else {
      AtChars(z, i, CLOSE_ITEM);
      AtChars(z, i, GLUED);
    }
  }

  lemma StrayFrame(p: Printed)
    requires Shaped(p) && p.closed
    ensures var z := OPEN_ITEM + Print(p);
            Find(z, OPEN_ITEM, 0) == Some(0) && NextFrame(z) == Item(|z|)
  {
    var x, z := Print(p), OPEN_ITEM + Print(p);
    var close := |x| - 7;
    PrintEnds(p);
    assert z[..6] == OPEN_ITEM;
    FindIs(z, OPEN_ITEM, 0, 0);
    forall i | 0 <= i < 6 + close ensures !At(z, i, CLOSE_ITEM) && !At(z, i, GLUED) {
      NothingBehindOpening(p, i);
    }
    CloseAtEnd(p, x);
    AtShift(OPEN_ITEM, x, 6 + close, CLOSE_ITEM);
    FindIs(z, CLOSE_ITEM, 0, 6 + close);
  }

  lemma NoHeader(z: string)
    requires |z| >= 12 && z[6..12] == OPEN_ITEM
    ensures ProcessItem(z) == None
  {
  }

  lemma TwoOpenings()
    ensures Processed(OPEN_ITEM + OPEN_ITEM, true) == (OPEN_ITEM, [])
  {
    var b := OPEN_ITEM + OPEN_ITEM;
    assert b[0..] == b && b[6..] == OPEN_ITEM && b[..6] == OPEN_ITEM && OPEN_ITEM[0..] == OPEN_ITEM;
    FindIs(b, OPEN_ITEM, 0, 0);
    FindIs(b, OPEN_ITEM, 6, 6);
    FindIs(OPEN_ITEM, OPEN_ITEM, 0, 0);
    NeverCloses(b);
    NeverCloses(OPEN_ITEM);
    KeepsPart(OPEN_ITEM, 0);
  }

  lemma NeverCloses(b: string)
    requires '/' !in b
    ensures Find(b, CLOSE_ITEM, 0) == None && Find(b, GLUED, 0) == None
  {
    forall i: nat ensures !At(b, i, CLOSE_ITEM) && !At(b, i, GLUED) {
      AtChars(b, i, CLOSE_ITEM);
      AtChars(b, i, GLUED);
    }
    FindIsNone(b, CLOSE_ITEM, 0);
    FindIsNone(b, GLUED, 0);
  }

  lemma WholeItemProcessed(p: Printed)
    requires Faithful(p) && p.closed
    ensures Processed(Print(p), true).1 == [MessageOf(p)]
  {
    var x := Print(p);
    PrintEnds(p);
    FindIs(x, OPEN_ITEM, 0, 0);
    assert x[0..] == x && x[..|x|] == x && x[|x|..] == "";
    WholeItem(p, x);
    ItemParses(p);
    TakesItem(x, 0, |x|);
    assert Find("", OPEN_ITEM, 0) == None;
  }

  /**
   The closing tags are needed: behind an opening tag that is never closed, an item is lost when it
   arrives in one chunk with it, and dispatched when its own opening tag arrives first.
   */
  lemma StrayOpeningDependsOnCut(p: Printed)
    requires Faithful(p) && p.closed
    ensures var whole, cut := [OPEN_ITEM + Print(p)], [OPEN_ITEM + OPEN_ITEM, Print(p)[6..]];
            Join(whole) == Join(cut) && Fed("", whole).1 == [] && Fed("", cut).1 == [MessageOf(p)]
  {
    var x, z := Print(p), OPEN_ITEM + Print(p);
    PrintEnds(p);
    assert x == OPEN_ITEM + x[6..];
    JoinTwo(OPEN_ITEM + OPEN_ITEM, x[6..]);
    JoinTwo("", z);
    Joins(OPEN_ITEM, OPEN_ITEM, x[6..]);
    StrayFrame(p);
    NoHeader(z);
    assert z[0..] == z && z[..|z|] == z && z[|z|..] == "";
    TakesItem(z, 0, |z|);
    assert Processed("", true).1 == [];
    FedOne("", z);
    assert "" + z == z;
    TwoOpenings();
    WholeItemProcessed(p);
    FedTwo(OPEN_ITEM + OPEN_ITEM, x[6..]);
  }

  lemma FedOne(buffer: string, a: string)
    ensures Fed(buffer, [a]).1 == Processed(buffer + a, true).1
  {
  }

  lemma FedTwo(a: string, b: string)
    ensures Fed("", [a, b]).1 == Processed(a, true).1 + Processed(Processed(a, true).0 + b, true).1
  {
    assert "" + a == a && [a, b][1..] == [b];
    FedOne(Processed(a, true).0, b);
  }

  // --- Without items ----------------------------------------------------------------------

  /** Switched off, the parser cuts the stream as it always does and dispatches nothing. */
  lemma {:induction false} SwitchedOff(b: string)
    ensures Processed(b, false).0 == Processed(b, true).0 && Processed(b, false).1 == []
    decreases |b|
  {
    var p := Find(b, OPEN_ITEM, 0);
    if p.Some? {
      match NextFrame(b[p.value..])
      case Wait =>
      case Drop(to) => SwitchedOff(b[p.value..][to..]);
      case Item(end) => SwitchedOff(b[p.value..][end..]);
    }
  }

  /** Noise in which nothing opens is kept up to 8388608 characters, and thrown away as a whole beyond. */
  lemma NoiseIsKeptUpToLimit(noise: string, parse: bool)
    requires '<' !in noise
    ensures Processed(noise, parse) == (if |noise| <= 8_388_608 then noise else "", [])
  {
    assert Agrees(noise, noise);
    NoItemInGap(noise, noise);
  }
}
