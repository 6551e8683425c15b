/**
 Shairport's metadata pipe: a stream of XML-like items that arrives in arbitrary pieces, cut into
 items and decoded one by one.
 */
module MetadataStream {
  import opened Text
  import opened Base64

  const OPEN_ITEM := "<item>"
  const CLOSE_ITEM := "</item>"
  const CLOSE_DATA := "</data>"
  const GLUED := "</data><item>"
  const DATA_TAG := "<data encoding=\"base64\">"
  const ZERO_LENGTH := "<length>0</length>"
  const MAX_BUFFER := 8 * 1024 * 1024

  /** One call of `dispatch_item`. */
  datatype Message = Message(kind: nat, code: nat, payload: seq<Byte>)

  // --- Headers ----------------------------------------------------------------------------

  function SkipBlanks(s: string, i: nat): (j: nat)
    requires i <= |s|
    ensures i <= j <= |s|
    decreases |s| - i
  {
    if i < |s| && IsSpace(s[i]) then SkipBlanks(s, i + 1) else i
  }

  /** End of a run of at most `width` hexadecimal digits. */
  function HexEnd(s: string, i: nat, width: nat): (e: nat)
    requires i <= |s|
    ensures i <= e <= |s| && e <= i + width && forall k | i <= k < e :: IsHex(s[k])
    decreases width
  {
    if width > 0 && i < |s| && IsHex(s[i]) then HexEnd(s, i + 1, width - 1) else i
  }

  /** `%8x` of `sscanf`: the number and where it ends. */
  function ReadHex(s: string, i: nat): (r: Option<(nat, nat)>)
    requires i <= |s|
    ensures r.Some? ==> r.value.1 <= |s|
  {
    var from := SkipBlanks(s, i);
    var end := HexEnd(s, from, 8);
    if end == from then None
    else
      assert forall k | 0 <= k < end - from :: s[from..end][k] == s[from + k];
      Some((HexValue(s[from..end]), end))
  }

  const ULONG_MAX := 0xFFFF_FFFF_FFFF_FFFF

  /** `%u` of `sscanf`, converted through a 64-bit number that saturates. */
  function ReadUnsigned(s: string, i: nat): Option<nat>
    requires i <= |s|
  {
    var from := SkipBlanks(s, i);
    var end := DigitsEnd(s, from);
    if end == from then None
    else
      assert forall k | 0 <= k < end - from :: s[from..end][k] == s[from + k];
      var n := Value(s[from..end]);
      Some((if n > ULONG_MAX then ULONG_MAX else n) % 0x1_0000_0000)
  }

  datatype Header = Header(kind: nat, code: nat, length: nat)

  /** A literal piece of the format and the number behind it. */
  function TaggedHex(s: string, i: nat, tag: string): (r: Option<(nat, nat)>)
    ensures r.Some? ==> r.value.1 <= |s|
  {
    if At(s, i, tag) then ReadHex(s, i + |tag|) else None
  }

  function TaggedUnsigned(s: string, i: nat, tag: string): Option<nat> {
    if At(s, i, tag) then ReadUnsigned(s, i + |tag|) else None
  }

  function ParseHeader(xml: string): Option<Header> {
    match TaggedHex(xml, 0, "<item><type>")
    case None => None
    case Some((kind, i)) =>
      match TaggedHex(xml, i, "</type><code>")
      case None => None
      case Some((code, j)) =>
        match TaggedUnsigned(xml, j, "</code><length>")
        case None => None
        case Some(length) => Some(Header(kind, code, length))
  }

  // --- Items ------------------------------------------------------------------------------

  function WithoutBreaks(s: string): string {
    if s == "" then "" else (if s[0] == '\n' || s[0] == '\r' then "" else [s[0]]) + WithoutBreaks(s[1..])
  }

  function DecodedPayload(encoded: string): Option<seq<Byte>> {
    if encoded == "" then Some([]) else Decoded(NonSpace(encoded), EMPTY)
  }

  function ExtractFrom(xml: string, start: nat): Option<seq<Byte>> {
    match Find(xml, CLOSE_DATA, start)
    case None => None
    case Some(end) => DecodedPayload(WithoutBreaks(xml[start..end]))
  }

  /** `extract_payload`; `None` when the data does not end or is not base64. */
  function ExtractPayload(xml: string): Option<seq<Byte>> {
    match Find(xml, DATA_TAG, 0)
    case None => Some([])
    case Some(tag) => ExtractFrom(xml, tag + |DATA_TAG|)
  }

  /** `process_item_xml`: the message it dispatches, if any. */
  function ProcessItem(xml: string): Option<Message>
    decreases |xml|
  {
    match ParseHeader(xml)
    case None => None
    case Some(h) =>
      if h.length == 0 then Some(Message(h.kind, h.code, []))
      else if Find(xml, DATA_TAG, 0).None? then
        match Find(xml, OPEN_ITEM, 6)
        case None => None
        case Some(nested) => ProcessItem(xml[nested..])
      else
        match ExtractPayload(xml)
        case None => None
        case Some(payload) =>
          if payload == [] then None
          else Some(Message(h.kind, h.code, if |payload| > h.length then payload[..h.length] else payload))
  }

  function AsList(m: Option<Message>): seq<Message> {
    match m case None => [] case Some(x) => [x]
  }

  // --- Framing ----------------------------------------------------------------------------

  /** What the framing loop does with a buffer that starts with `<item>`. */
  datatype Frame = Item(end: nat) | Drop(to: nat) | Wait

  function NextFrame(b: string): (r: Frame)
    ensures r.Item? ==> 0 < r.end <= |b|
    ensures r.Drop? ==> 6 <= r.to <= |b|
  {
    var glued, close, next := Find(b, GLUED, 0), Find(b, CLOSE_ITEM, 0), Find(b, OPEN_ITEM, 6);
    if glued.Some? && (close.None? || glued.value < close.value) then Item(glued.value + |CLOSE_DATA|)
    else if close.Some? then Item(close.value + |CLOSE_ITEM|)
    else if next.Some? then
      if Find(b[..next.value], ZERO_LENGTH, 0).Some? then Item(next.value)
      else if Find(b[..next.value], DATA_TAG, 0).None? then Drop(next.value)
      else Wait
    else Wait
  }

  /** What is left of the buffer, and the messages dispatched on the way. */
  function Processed(buffer: string, parse: bool): (string, seq<Message>)
    decreases |buffer|
  {
    match Find(buffer, OPEN_ITEM, 0)
    case None => (if |buffer| > MAX_BUFFER then "" else buffer, [])
    case Some(p) =>
      var b := buffer[p..];
      match NextFrame(b)
      case Wait => (b, [])
      case Drop(to) => Processed(b[to..], parse)
      case Item(end) =>
        var (rest, more) := Processed(b[end..], parse);
        (rest, (if parse then AsList(ProcessItem(b[..end])) else []) + more)
  }

  class MetadataParser {
    var streamBuffer: string
    var dispatched: seq<Message>

    constructor ()
      ensures streamBuffer == "" && dispatched == []
    {
      streamBuffer, dispatched := "", [];
    }

    method Reset()
      modifies this
      ensures streamBuffer == "" && dispatched == old(dispatched)
    {
      streamBuffer := "";
    }

    method Feed(data: string, parse: bool)
      modifies this
      ensures (streamBuffer, dispatched) ==
              (Processed(old(streamBuffer) + data, parse).0,
               old(dispatched) + Processed(old(streamBuffer) + data, parse).1)
    {
      streamBuffer := streamBuffer + data;
      ProcessStreamBuffer(parse);
    }

    method ProcessStreamBuffer(parse: bool)
      modifies this
      ensures streamBuffer == Processed(old(streamBuffer), parse).0
      ensures dispatched == old(dispatched) + Processed(old(streamBuffer), parse).1
    {
      ghost var start, log := streamBuffer, dispatched;
      while true
        invariant Processed(streamBuffer, parse).0 == Processed(start, parse).0
        invariant dispatched + Processed(streamBuffer, parse).1 == log + Processed(start, parse).1
        decreases |streamBuffer|
      {
        var itemPos := Find(streamBuffer, OPEN_ITEM, 0);
        if itemPos.None? {
          assert dispatched + [] == dispatched;
          if |streamBuffer| > MAX_BUFFER {
            streamBuffer := "";
          }
          return;
        }
        ghost var whole := streamBuffer;
        var item := streamBuffer[itemPos.value..];
        var frame := NextFrame(item);
        match frame {
          case Wait =>
            streamBuffer := item;
            assert dispatched + [] == dispatched;
            return;
          case Drop(to) =>
            streamBuffer := item[to..];
          case Item(end) =>
            var message := if parse then AsList(ProcessItem(item[..end])) else [];
            ghost var rest := Processed(item[end..], parse).1;
            assert Processed(whole, parse).1 == message + rest;
            Joins(dispatched, message, rest);
            streamBuffer := item[end..];
            dispatched := dispatched + message;
        }
      }
    }
  }
}
