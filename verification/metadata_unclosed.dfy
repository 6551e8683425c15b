/**
 Items of which only the header is printed, with neither data nor closing tag: what becomes of them, and of
 the item behind them, depends on how much of that item has arrived.
 */
module MetadataUnclosed {
  import opened Text
  import opened Base64
  import opened MetadataStream
  import opened MetadataFraming

  /** The header of an item, and whatever stands before the next one; the length is that of the lost payload. */
  datatype Bare = Bare(item: Printed, after: string)

  ghost predicate Sensible(h: Bare) {
    HexNumeral(h.item.kind) && HexNumeral(h.item.code) && |h.item.payload| < 0x1_0000_0000 && '<' !in h.after
  }

  function BarePieces(h: Bare): seq<string> { Front(h.item) + ["</length>" + h.after] }

  function BareText(h: Bare): string { Join(BarePieces(h)) }

  lemma BareTokens(h: Bare)
    requires Sensible(h)
    ensures Tokens(BarePieces(h), '<')
  {
    NumeralToken("<type>", h.item.kind);
    NumeralToken("<code>", h.item.code);
    NumeralToken("<length>", Dec(|h.item.payload|));
    var t := "</length>" + h.after;
    forall i | 1 <= i < |t| ensures t[i] != '<' {
      if i >= 9 { assert t[i] == h.after[i - 9]; }
    }
    assert Tokens(Front(h.item), '<') && Tokens(["</length>" + h.after], '<');
  }

  /** The header, laid out the way it is scanned. */
  lemma BareLayout(h: Bare) returns (rest: string)
    ensures rest == "</length>" + h.after
    ensures BareText(h) == "<item><type>" + (h.item.kind + ("</type><code>" + (h.item.code +
                           ("</code><length>" + (Dec(|h.item.payload|) + rest)))))
  {
    var p := h.item;
    rest := "</length>" + h.after;
    JoinAppend(Front(p), [rest]);
    JoinTwo("", rest);
    JoinSix(OPEN_ITEM, "<type>" + p.kind, "</type>", "<code>" + p.code, "</code>", "<length>" + Dec(|p.payload|));
    Regroup(p.kind, p.code, Dec(|p.payload|), rest);
  }

  lemma BareStarts(h: Bare)
    ensures |BareText(h)| >= 12 && BareText(h)[..12] == "<item><type>"
  {
    var rest := BareLayout(h);
  }

  /** A `<` in the header opens one of its tags. */
  lemma BareOpening(h: Bare, i: nat) returns (k: nat)
    requires Sensible(h) && i < |BareText(h)| && BareText(h)[i] == '<'
    ensures k < 7 && i == |Join(BarePieces(h)[..k])| && (k == 0 <==> i == 0)
    ensures var t := BarePieces(h)[k]; |t| >= 6 && i + |t| <= |BareText(h)| && BareText(h)[i..i + |t|] == t
  {
    BareTokens(h);
    var ts := BarePieces(h);
    k := TokenStart(ts, i);
    if k > 0 { PiecesApart(ts, 0, k); }
    assert Join(ts[..0]) == "";
  }

  /** No pattern of the framing loop matches inside the header. */
  lemma NothingInBare(h: Bare, z: string, i: nat)
    requires Sensible(h) && Agrees(z, BareText(h)) && i < |BareText(h)|
    ensures !At(z, i, CLOSE_ITEM) && !At(z, i, GLUED) && !At(z, i, DATA_TAG) && (i > 0 ==> !At(z, i, OPEN_ITEM))
  {
    var x := BareText(h);
    AtChars(z, i, CLOSE_ITEM);
    AtChars(z, i, GLUED);
    AtChars(z, i, DATA_TAG);
    AtChars(z, i, OPEN_ITEM);
    if x[i] == '<' {
      var k := BareOpening(h, i);
      var t := BarePieces(h)[k];
      assert x[i + 1] == x[i..i + |t|][1] && x[i + 2] == x[i..i + |t|][2];
      BareHeads(h, k);
    }
  }

  lemma BareHeads(h: Bare, k: nat)
    requires k < 7
    ensures var t := BarePieces(h)[k];
            |t| >= 6 && !(t[1] == '/' && (t[2] == 'i' || t[2] == 'd')) && t[1] != 'd' && (k > 0 ==> t[1] != 'i')
  {
  }

  // --- The length that the framing loop looks for -----------------------------------------

  lemma ZeroLengthAt(h: Bare, i: nat)
    requires Sensible(h) && h.item.payload != []
    ensures !At(BareText(h), i, ZERO_LENGTH)
  {
    var x := BareText(h);
    AtChars(x, i, ZERO_LENGTH);
    if i + 8 < |x| && x[i] == '<' && x[i + 1] == 'l' {
      var k := BareOpening(h, i);
      var t := BarePieces(h)[k];
      assert x[i + 1] == x[i..i + |t|][1];
      assert k == 5 && x[i + 8] == x[i..i + |t|][8] == Dec(|h.item.payload|)[0];
    }
  }

  lemma ZeroLengthStands(h: Bare) returns (i: nat)
    requires h.item.payload == []
    ensures At(BareText(h), i, ZERO_LENGTH)
  {
    var ts := BarePieces(h);
    i := |Join(ts[..5])|;
    JoinAround(ts, 5);
    assert ts[6..] == ["</length>" + h.after];
    JoinTwo("", "</length>" + h.after);
    assert BareText(h)[i..] == ("<length>" + Dec(0)) + ("</length>" + h.after);
    assert ("<length>" + Dec(0)) + ("</length>" + h.after) == ZERO_LENGTH + h.after;
  }

  lemma ZeroLengthIff(h: Bare)
    requires Sensible(h)
    ensures Find(BareText(h), ZERO_LENGTH, 0).Some? <==> h.item.payload == []
  {
    if h.item.payload == [] {
      var i := ZeroLengthStands(h);
    } else {
      forall i: nat ensures !At(BareText(h), i, ZERO_LENGTH) { ZeroLengthAt(h, i); }
      FindIsNone(BareText(h), ZERO_LENGTH, 0);
    }
  }

  // --- Framing ----------------------------------------------------------------------------

  /** A bare header, and the item behind it. */
  ghost predicate Followed(h: Bare, q: Printed) { Sensible(h) && Faithful(q) && q.closed }

  lemma BehindBare(z: string, n: nat, i: nat, pat: string)
    requires n <= |z| && n <= i
    ensures At(z, i, pat) <==> At(z[n..], i - n, pat)
  {
    assert z[..n] + z[n..] == z;
    AtShift(z[..n], z[n..], i, pat);
  }

  lemma AgreesBehind(z: string, x: string, y: string)
    requires Agrees(z, x + y) && |x| <= |z|
    ensures Agrees(z, x) && Agrees(z[|x|..], y) && z[..|x|] == x
  {
    forall i | 0 <= i < |z[|x|..]| && i < |y| ensures z[|x|..][i] == y[i] {
      assert z[|x| + i] == (x + y)[|x| + i];
    }
    forall i | 0 <= i < |x| ensures z[i] == x[i] {
      assert z[i] == (x + y)[i];
    }
  }

  /** Up to the closing tag of the item behind, nothing closes anything. */
  lemma NothingCloses(h: Bare, q: Printed, z: string, i: nat)
    requires Followed(h, q) && Agrees(z, BareText(h) + Print(q)) && |BareText(h)| <= |z|
    requires i + 7 < |BareText(h)| + |Print(q)|
    ensures !At(z, i, CLOSE_ITEM) && !At(z, i, GLUED)
    ensures i > 0 && i != |BareText(h)| ==> !At(z, i, OPEN_ITEM)
  {
    var x := BareText(h);
    AgreesBehind(z, x, Print(q));
    if i < |x| {
      NothingInBare(h, z, i);
    } else {
      BehindBare(z, |x|, i, CLOSE_ITEM);
      BehindBare(z, |x|, i, GLUED);
      BehindBare(z, |x|, i, OPEN_ITEM);
      NothingBeforeClose(q, z[|x|..], i - |x|);
    }
  }

  /** All of the item behind has arrived: both are taken for one. */
  lemma BothFramed(h: Bare, q: Printed, z: string)
    requires Followed(h, q) && Agrees(z, BareText(h) + Print(q)) && |z| >= |BareText(h)| + |Print(q)|
    ensures NextFrame(z) == Item(|BareText(h)| + |Print(q)|)
  {
    var x := BareText(h);
    var close := |x| + |Print(q)| - 7;
    PrintEnds(q);
    AgreesBehind(z, x, Print(q));
    forall i | 0 <= i < close ensures !At(z, i, CLOSE_ITEM) && !At(z, i, GLUED) {
      NothingCloses(h, q, z, i);
    }
    CloseAtEnd(q, z[|x|..]);
    BehindBare(z, |x|, close, CLOSE_ITEM);
    FindIs(z, CLOSE_ITEM, 0, close);
  }

  lemma NothingYet(h: Bare, q: Printed, z: string, i: nat)
    requires Followed(h, q) && Agrees(z, BareText(h) + Print(q))
    requires |BareText(h)| + 6 <= |z| < |BareText(h)| + |Print(q)|
    ensures !At(z, i, CLOSE_ITEM) && !At(z, i, GLUED)
  {
    if i + 7 < |BareText(h)| + |Print(q)| {
      NothingCloses(h, q, z, i);
    }
  }

  /** Only a part of it has: the header is dispatched on its own if its length is zero, and dropped otherwise. */
  lemma BareFramed(h: Bare, q: Printed, z: string)
    requires Followed(h, q) && Agrees(z, BareText(h) + Print(q))
    requires |BareText(h)| + 6 <= |z| < |BareText(h)| + |Print(q)|
    ensures NextFrame(z) == if h.item.payload == [] then Item(|BareText(h)|) else Drop(|BareText(h)|)
  {
    var x := BareText(h);
    PrintEnds(q);
    BareStarts(h);
    AgreesBehind(z, x, Print(q));
    forall i: nat ensures !At(z, i, CLOSE_ITEM) && !At(z, i, GLUED) { NothingYet(h, q, z, i); }
    FindIsNone(z, CLOSE_ITEM, 0);
    FindIsNone(z, GLUED, 0);
    forall i | 6 <= i < |x| ensures !At(z, i, OPEN_ITEM) { NothingInBare(h, z, i); }
    assert z[|x|..][..6] == Print(q)[..6];
    assert z[|x|..|x| + 6] == z[|x|..][..6];
    FindIs(z, OPEN_ITEM, 6, |x|);
    ZeroLengthIff(h);
    forall i: nat ensures !At(x, i, DATA_TAG) {
      if i < |x| { NothingInBare(h, x, i); }
    }
    FindIsNone(x, DATA_TAG, 0);
  }

  // --- What is dispatched -----------------------------------------------------------------

  lemma BareHeader(h: Bare, y: string)
    requires Sensible(h)
    ensures ParseHeader(BareText(h) + y) == Some(Header(HexValue(h.item.kind), HexValue(h.item.code), |h.item.payload|))
  {
    var p := h.item;
    var rest := BareLayout(h);
    Regroup(p.kind, p.code, Dec(|p.payload|), rest);
    Regroup(p.kind, p.code, Dec(|p.payload|), rest + y);
    Joins("<item>" + ("<type>" + p.kind + ("</type>" + ("<code>" + p.code + ("</code>" + ("<length>" + Dec(|p.payload|)))))),
          rest, y);
    HeaderReads(BareText(h) + y, p.kind, p.code, |p.payload|, rest + y);
  }

  lemma NoDataInBare(h: Bare, y: string)
    requires Sensible(h)
    ensures Find(BareText(h) + y, DATA_TAG, 0) == Shift(|BareText(h)|, Find(y, DATA_TAG, 0))
  {
    forall i | 0 <= i < |BareText(h)| ensures !At(BareText(h) + y, i, DATA_TAG) {
      NothingInBare(h, BareText(h) + y, i);
    }
    FindPastPrefix(BareText(h), y, DATA_TAG, 0);
  }

  function Short(payload: seq<Byte>, length: nat): seq<Byte> {
    if |payload| > length then payload[..length] else payload
  }

  /** What comes of the two taken for one: the lost length decides between the header, the item, and a mixture. */
  function Mixed(h: Bare, q: Printed): Message
    requires HexNumeral(h.item.kind) && HexNumeral(h.item.code) && HexNumeral(q.kind) && HexNumeral(q.code)
  {
    if h.item.payload == [] then MessageOf(h.item)
    else if q.payload == [] then MessageOf(q)
    else Message(HexValue(h.item.kind), HexValue(h.item.code), Short(q.payload, |h.item.payload|))
  }

  lemma NoDataInEmpty(q: Printed)
    requires Faithful(q) && q.closed && q.payload == []
    ensures Find(Print(q), DATA_TAG, 0) == None
  {
    var ts := Pieces(q);
    PiecesAreTokens(q);
    forall k | 0 <= k < |ts| ensures !(DATA_TAG <= ts[k]) {
      assert ts[k] == if k < 6 then Front(q)[k] else if k == 6 then "</length>" else CLOSE_ITEM;
      NotData(ts[k]);
    }
    FirstWithNone(ts, DATA_TAG);
    FindInTokens(ts, '<', DATA_TAG);
  }

  lemma NestedParses(h: Bare, q: Printed)
    requires Followed(h, q) && h.item.payload != [] && q.payload == []
    ensures ProcessItem(BareText(h) + Print(q)) == Some(MessageOf(q))
  {
    var x, y := BareText(h), Print(q);
    BareHeader(h, y);
    BareStarts(h);
    NoDataInBare(h, y);
    NoDataInEmpty(q);
    forall i | 6 <= i < |x| ensures !At(x + y, i, OPEN_ITEM) { NothingInBare(h, x + y, i); }
    FindPastPrefix(x, y, OPEN_ITEM, 6);
    PrintEnds(q);
    FindIs(y, OPEN_ITEM, 0, 0);
    assert (x + y)[|x|..] == y;
    ItemParses(q);
  }

  lemma MixedExtracts(h: Bare, q: Printed)
    requires Followed(h, q) && q.payload != []
    ensures ExtractPayload(BareText(h) + Print(q)) == Some(q.payload) && Find(BareText(h) + Print(q), DATA_TAG, 0).Some?
  {
    var x, y := BareText(h), Print(q);
    var start := DataAt(q);
    NoDataInBare(h, y);
    TailOf(x, y, start);
    ExtractsText(x + y, |x| + start, q.text, Join(Tail(q)));
    BreaksDoNotMatter(q.text);
    PayloadDecodes(q);
  }

  lemma TailOf(x: string, y: string, i: nat)
    requires i <= |y|
    ensures (x + y)[|x| + i..] == y[i..]
  {
  }

  lemma MixedParses(h: Bare, q: Printed)
    requires Followed(h, q) && h.item.payload != [] && q.payload != []
    ensures ProcessItem(BareText(h) + Print(q)) == Some(Mixed(h, q))
  {
    BareHeader(h, Print(q));
    MixedExtracts(h, q);
    WithData(BareText(h) + Print(q), Header(HexValue(h.item.kind), HexValue(h.item.code), |h.item.payload|), q.payload);
  }

  lemma BothParse(h: Bare, q: Printed)
    requires Followed(h, q)
    ensures ProcessItem(BareText(h) + Print(q)) == Some(Mixed(h, q))
  {
    if h.item.payload == [] {
      BareHeader(h, Print(q));
      NoData(BareText(h) + Print(q), Header(HexValue(h.item.kind), HexValue(h.item.code), 0));
    } else if q.payload == [] {
      NestedParses(h, q);
    } else {
      MixedParses(h, q);
    }
  }

  // --- Chunks -----------------------------------------------------------------------------

  function Both(h: Bare, q: Printed): string { BareText(h) + Print(q) }

  lemma OpensBoth(h: Bare, q: Printed, z: string)
    requires Agrees(z, Both(h, q)) && |z| >= 6
    ensures Find(z, OPEN_ITEM, 0) == Some(0) && z[0..] == z
  {
    BareStarts(h);
    assert z[..6] == OPEN_ITEM;
    FindIs(z, OPEN_ITEM, 0, 0);
  }

  lemma NothingBuffered()
    ensures Processed("", true) == ("", [])
  {
    assert Find("", OPEN_ITEM, 0) == None;
  }

  /** The buffer starts with an item, and what is behind it stays. */
  lemma TakesFront(z: string, front: string, back: string, m: Message)
    requires z == front + back && Find(z, OPEN_ITEM, 0) == Some(0) && NextFrame(z) == Item(|front|)
    requires ProcessItem(front) == Some(m) && Processed(back, true) == (back, [])
    ensures Processed(z, true) == (back, [m])
  {
    assert z[0..] == z && z[..|front|] == front && z[|front|..] == back;
    TakesItem(z, 0, |front|);
    assert AsList(Some(m)) + [] == [m];
  }

  lemma DropsFront(z: string, n: nat)
    requires n <= |z| && Find(z, OPEN_ITEM, 0) == Some(0) && NextFrame(z) == Drop(n)
    requires Processed(z[n..], true) == (z[n..], [])
    ensures Processed(z, true) == (z[n..], [])
  {
    assert z[0..] == z;
  }

  lemma FedCut(a: string, b: string, left: string, now: seq<Message>, later: seq<Message>)
    requires Processed(a, true) == (left, now) && Processed(left + b, true).1 == later
    ensures Fed("", [a, b]).1 == now + later
  {
    FedTwo(a, b);
  }

  lemma AllArrived(h: Bare, q: Printed)
    requires Followed(h, q)
    ensures Processed(Both(h, q), true) == ("", [Mixed(h, q)])
  {
    BareStarts(h);
    OpensBoth(h, q, Both(h, q));
    BothFramed(h, q, Both(h, q));
    BothParse(h, q);
    NothingBuffered();
    assert Both(h, q) + "" == Both(h, q);
    TakesFront(Both(h, q), Both(h, q), "", Mixed(h, q));
  }

  lemma NothingOpens(h: Bare, q: Printed, z: string, i: nat)
    requires Followed(h, q) && Agrees(z, Both(h, q)) && |z| < |BareText(h)| + 6
    ensures !At(z, i, CLOSE_ITEM) && !At(z, i, GLUED) && (i > 0 ==> !At(z, i, OPEN_ITEM))
  {
    if i < |BareText(h)| {
      AgreesPrefix(z, BareText(h), Print(q));
      NothingInBare(h, z, i);
    }
  }

  lemma NoFrameYet(h: Bare, q: Printed, z: string)
    requires Followed(h, q) && Agrees(z, Both(h, q)) && 6 <= |z| < |BareText(h)| + 6
    ensures NextFrame(z) == Wait
  {
    forall i: nat ensures !At(z, i, CLOSE_ITEM) && !At(z, i, GLUED) && (i > 0 ==> !At(z, i, OPEN_ITEM)) {
      NothingOpens(h, q, z, i);
    }
    FindIsNone(z, CLOSE_ITEM, 0);
    FindIsNone(z, GLUED, 0);
    FindIsNone(z, OPEN_ITEM, 6);
  }

  /** Too little has arrived to tell: nothing happens. */
  lemma TooLittle(h: Bare, q: Printed, z: string)
    requires Followed(h, q) && Agrees(z, Both(h, q)) && |z| < |BareText(h)| + 6
    ensures Processed(z, true) == (z, [])
  {
    if |z| < 6 {
      FindIsNone(z, OPEN_ITEM, 0);
      KeepsGap(z);
    } else {
      OpensBoth(h, q, z);
      NoFrameYet(h, q, z);
      KeepsPart(z, 0);
    }
  }

  function Alone(h: Bare): seq<Message>
    requires HexNumeral(h.item.kind) && HexNumeral(h.item.code)
  {
    if h.item.payload == [] then [MessageOf(h.item)] else []
  }

  lemma KeepsRest(q: Printed, y: string)
    requires Faithful(q) && q.closed && Agrees(y, Print(q)) && 6 <= |y| < |Print(q)|
    ensures Processed(y, true) == (y, [])
  {
    PrintEnds(q);
    assert y[..6] == OPEN_ITEM && y[0..] == y;
    FindIs(y, OPEN_ITEM, 0, 0);
    PartClosed(q, y);
    KeepsPart(y, 0);
  }

  lemma EmptyParses(h: Bare)
    requires Sensible(h) && h.item.payload == []
    ensures ProcessItem(BareText(h)) == Some(MessageOf(h.item))
  {
    assert BareText(h) + "" == BareText(h);
    BareHeader(h, "");
    NoData(BareText(h), Header(HexValue(h.item.kind), HexValue(h.item.code), 0));
  }

  /** The header has been dealt with when a part of the item behind is there. */
  lemma PartArrived(h: Bare, q: Printed, z: string)
    requires Followed(h, q) && Agrees(z, Both(h, q))
    requires |BareText(h)| + 6 <= |z| < |BareText(h)| + |Print(q)|
    ensures Processed(z, true) == (z[|BareText(h)|..], Alone(h))
  {
    var x := BareText(h);
    OpensBoth(h, q, z);
    BareFramed(h, q, z);
    AgreesBehind(z, x, Print(q));
    KeepsRest(q, z[|x|..]);
    if h.item.payload == [] {
      EmptyParses(h);
      TakesFront(z, x, z[|x|..], MessageOf(h.item));
    } else {
      DropsFront(z, |x|);
    }
  }

  lemma CutAt(h: Bare, q: Printed, cut: nat)
    requires |BareText(h)| <= cut <= |Both(h, q)|
    ensures Both(h, q)[..cut][|BareText(h)|..] + Both(h, q)[cut..] == Print(q)
  {
  }

  /**
   A header of which the rest is lost, in front of a whole item, when the two arrive in two chunks: if the
   cut lies behind the next opening tag, the item is dispatched, and before it the header if its length is
   zero; otherwise one message is made of both.
   */
  lemma UnclosedHeaderIff(h: Bare, q: Printed, cut: nat)
    requires Followed(h, q) && cut <= |Both(h, q)|
    ensures Fed("", [Both(h, q)[..cut], Both(h, q)[cut..]]).1 ==
            if |BareText(h)| + 6 <= cut < |Both(h, q)| then Alone(h) + [MessageOf(q)] else [Mixed(h, q)]
  {
    var w, x := Both(h, q), BareText(h);
    var a, b := w[..cut], w[cut..];
    assert a + b == w;
    AllArrived(h, q);
    if cut == |w| {
      assert a == w && b == "" && "" + b == "";
      NothingBuffered();
      FedCut(a, b, "", [Mixed(h, q)], []);
    } else if cut < |x| + 6 {
      TooLittle(h, q, a);
      FedCut(a, b, a, [], [Mixed(h, q)]);
    } else {
      PartArrived(h, q, a);
      CutAt(h, q, cut);
      WholeItemProcessed(q);
      FedCut(a, b, a[|x|..], Alone(h), [MessageOf(q)]);
    }
  }
}
