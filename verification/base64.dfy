/** The metadata service's base64 decoder against the encoding of section 4 of RFC 4648. */
module Base64 {
  import opened Text

  /** `std::isspace` in the C locale. */
  predicate IsSpace(c: char) {
    c == ' ' || 9 <= c as int <= 13
  }

  function NonSpace(s: string): (t: string)
    ensures forall i | 0 <= i < |t| :: !IsSpace(t[i])
  {
    if s == "" then ""
    else (if IsSpace(s[0]) then "" else [s[0]]) + NonSpace(s[1..])
  }

  /** The lookup table; the entries from 128 on are left out of its initialiser and hence 0. */
  function Table(c: char): int {
    if 'A' <= c <= 'Z' then c as int - 'A' as int
    else if 'a' <= c <= 'z' then c as int - 'a' as int + 26
    else if '0' <= c <= '9' then c as int - '0' as int + 52
    else if c == '+' then 62
    else if c == '/' then 63
    else if c as int >= 128 then 0
    else -1
  }

  /** The decoder's 32-bit shift register, the bits not yet handed out, and the bytes so far. */
  datatype AnyRegister = Register(buffer: bv32, bits: nat, out: seq<Byte>)

  type Register = r: AnyRegister | r.bits < 8 witness Register(0, 0, [])

  /** One more sextet; the shift drops what leaves the 32 bits. */
  function Shifted(r: Register, value: bv32): Register {
    var buffer := (r.buffer << 6) | value;
    if r.bits + 6 >= 8
    then Register(buffer, r.bits - 2, r.out + [((buffer >> ((r.bits - 2) as bv6)) & 0xFF) as Byte])
    else Register(buffer, r.bits + 6, r.out)
  }

  /** The decoder's loop over text without blanks. */
  function Decoded(t: string, r: Register): Option<seq<Byte>> {
    if t == "" || t[0] == '=' then Some(r.out)
    else if Table(t[0]) < 0 then None
    else Decoded(t[1..], Shifted(r, Table(t[0]) as bv32))
  }

  const EMPTY: Register := Register(0, 0, [])

  method Trim(encoded: string) returns (trimmed: string)
    ensures trimmed == NonSpace(encoded)
  {
    trimmed := "";
    for i := 0 to |encoded|
      invariant trimmed + NonSpace(encoded[i..]) == NonSpace(encoded)
    {
      var c := encoded[i];
      assert encoded[i..][1..] == encoded[i + 1..];
      if !IsSpace(c) {
        assert trimmed + [c] + NonSpace(encoded[i + 1..]) == trimmed + ([c] + NonSpace(encoded[i + 1..]));
        trimmed := trimmed + [c];
      }
    }
  }

  method DecodeBase64(encoded: string) returns (r: Option<seq<Byte>>)
    ensures r == Decoded(NonSpace(encoded), EMPTY)
  {
    var trimmed := Trim(encoded);
    if trimmed == "" {
      return Some([]);
    }
    if |trimmed| % 4 != 0 {
      var pad := seq(4 - |trimmed| % 4, _ => '=');
      PadIsIgnored(trimmed, pad, EMPTY);
      trimmed := trimmed + pad;
    }
    r := DecodeLoop(trimmed);
  }

  method DecodeLoop(trimmed: string) returns (r: Option<seq<Byte>>)
    ensures r == Decoded(trimmed, EMPTY)
  {
    var register: Register := EMPTY;
    var i := 0;
    while i < |trimmed| && trimmed[i] != '='
      invariant i <= |trimmed|
      invariant Decoded(trimmed[i..], register) == Decoded(trimmed, EMPTY)
    {
      var value := Table(trimmed[i]);
      if value < 0 {
        return None;
      }
      register := Shifted(register, value as bv32);
      i := i + 1;
    }
    return Some(register.out);
  }

  lemma {:induction false} PadIsIgnored(t: string, pad: string, r: Register)
    requires forall i | 0 <= i < |pad| :: pad[i] == '='
    ensures Decoded(t + pad, r) == Decoded(t, r)
  {
    if t == "" {
      assert t + pad == pad;
    } else if t[0] != '=' && Table(t[0]) >= 0 {
      assert (t + pad)[1..] == t[1..] + pad;
      PadIsIgnored(t[1..], pad, Shifted(r, Table(t[0]) as bv32));
    }
  }

  // --- The encoder of the standard --------------------------------------------------------

  function Letter(v: nat): char
    requires v < 64
  {
    if v < 26 then 'A' + v as char
    else if v < 52 then 'a' + (v - 26) as char
    else if v < 62 then '0' + (v - 52) as char
    else if v == 62 then '+' else '/'
  }

  /** The table undoes the alphabet, whose letters are neither blank nor padding nor markup. */
  lemma LetterTable(v: nat)
    requires v < 64
    ensures Table(Letter(v)) == v && Plain(Letter(v))
  {
  }

  predicate Plain(c: char) { c != '=' && c != '<' && !IsSpace(c) }

  function Sextet(v: bv32): char
    requires v < 64
  {
    Letter(v as nat)
  }

  function First(b0: Byte): (v: bv32) ensures v < 64 { b0 as bv32 >> 2 }
  function Second(b0: Byte, b1: Byte): (v: bv32) ensures v < 64 { ((b0 as bv32 & 3) << 4) | (b1 as bv32 >> 4) }
  function Third(b1: Byte, b2: Byte): (v: bv32) ensures v < 64 { ((b1 as bv32 & 15) << 2) | (b2 as bv32 >> 6) }
  function Fourth(b2: Byte): (v: bv32) ensures v < 64 { b2 as bv32 & 63 }

  function Pair(b0: Byte, b1: Byte): string { [Sextet(First(b0)), Sextet(Second(b0, b1))] }
  function Triple(b0: Byte, b1: Byte, b2: Byte): string { Pair(b0, b1) + [Sextet(Third(b1, b2))] }
  function Quad(b0: Byte, b1: Byte, b2: Byte): string { Triple(b0, b1, b2) + [Sextet(Fourth(b2))] }

  /** Three bytes are four groups of six bits; a last short group is filled up with zero bits. */
  function Encoded(b: seq<Byte>): string {
    if |b| == 0 then ""
    else if |b| == 1 then Pair(b[0], 0)
    else if |b| == 2 then Triple(b[0], b[1], 0)
    else Quad(b[0], b[1], b[2]) + Encoded(b[3..])
  }

  // --- Round trip -------------------------------------------------------------------------

  /** The junk above the pending bits never reaches a byte: from an empty register, two sextets. */
  lemma FirstByte(r: Register, b0: Byte, b1: Byte)
    requires r.bits == 0
    ensures var s := Shifted(Shifted(r, First(b0)), Second(b0, b1));
            s.bits == 4 && s.out == r.out + [b0] && s.buffer & 15 == b1 as bv32 >> 4
  {
  }

  lemma SecondByte(r: Register, b1: Byte, b2: Byte)
    requires r.bits == 4 && r.buffer & 15 == b1 as bv32 >> 4
    ensures var s := Shifted(r, Third(b1, b2));
            s.bits == 2 && s.out == r.out + [b1] && s.buffer & 3 == b2 as bv32 >> 6
  {
  }

  lemma ThirdByte(r: Register, b2: Byte)
    requires r.bits == 2 && r.buffer & 3 == b2 as bv32 >> 6
    ensures var s := Shifted(r, Fourth(b2)); s.bits == 0 && s.out == r.out + [b2]
  {
  }

  lemma BackAndForth(v: bv32)
    requires v < 64
    ensures (v as nat) as bv32 == v
  {
  }

  lemma DecodeLetter(v: bv32, rest: string, r: Register)
    requires v < 64
    ensures Decoded([Sextet(v)] + rest, r) == Decoded(rest, Shifted(r, v))
  {
    BackAndForth(v);
    LetterTable(v as nat);
    assert ([Sextet(v)] + rest)[1..] == rest;
  }

  lemma DecodeTwo(b0: Byte, b1: Byte, rest: string, r: Register) returns (n: Register)
    requires r.bits == 0
    ensures n.bits == 4 && n.out == r.out + [b0] && n.buffer & 15 == b1 as bv32 >> 4
    ensures Decoded(Pair(b0, b1) + rest, r) == Decoded(rest, n)
  {
    var v, w := First(b0), Second(b0, b1);
    n := Shifted(Shifted(r, v), w);
    FirstByte(r, b0, b1);
    DecodeLetter(v, [Sextet(w)] + rest, r);
    DecodeLetter(w, rest, Shifted(r, v));
    assert Pair(b0, b1) + rest == [Sextet(v)] + ([Sextet(w)] + rest);
  }

  lemma DecodeThree(b0: Byte, b1: Byte, b2: Byte, rest: string, r: Register) returns (n: Register)
    requires r.bits == 0
    ensures n.bits == 2 && n.out == r.out + [b0, b1] && n.buffer & 3 == b2 as bv32 >> 6
    ensures Decoded(Triple(b0, b1, b2) + rest, r) == Decoded(rest, n)
  {
    var v := Third(b1, b2);
    var m := DecodeTwo(b0, b1, [Sextet(v)] + rest, r);
    n := Shifted(m, v);
    SecondByte(m, b1, b2);
    DecodeLetter(v, rest, m);
    assert r.out + [b0] + [b1] == r.out + [b0, b1];
    assert Triple(b0, b1, b2) + rest == Pair(b0, b1) + ([Sextet(v)] + rest);
  }

  lemma DecodeFour(b0: Byte, b1: Byte, b2: Byte, rest: string, r: Register) returns (n: Register)
    requires r.bits == 0
    ensures n.bits == 0 && n.out == r.out + [b0, b1, b2]
    ensures Decoded(Quad(b0, b1, b2) + rest, r) == Decoded(rest, n)
  {
    var v := Fourth(b2);
    var m := DecodeThree(b0, b1, b2, [Sextet(v)] + rest, r);
    n := Shifted(m, v);
    ThirdByte(m, b2);
    DecodeLetter(v, rest, m);
    assert r.out + [b0, b1] + [b2] == r.out + [b0, b1, b2];
    assert Quad(b0, b1, b2) + rest == Triple(b0, b1, b2) + ([Sextet(v)] + rest);
  }

  lemma DecodeNoByte(b: seq<Byte>, pad: string, r: Register)
    requires |b| == 0 && (pad == "" || pad[0] == '=')
    ensures Decoded(Encoded(b) + pad, r) == Some(r.out + b)
  {
    PadEnds(pad, r);
    Joins("", pad, "");
    assert r.out + b == r.out;
  }

  lemma DecodeOneByte(b: seq<Byte>, pad: string, r: Register)
    requires |b| == 1 && r.bits == 0 && (pad == "" || pad[0] == '=')
    ensures Decoded(Encoded(b) + pad, r) == Some(r.out + b)
  {
    var n := DecodeTwo(b[0], 0, pad, r);
    PadEnds(pad, n);
    assert b == [b[0]];
  }

  lemma DecodeTwoBytes(b: seq<Byte>, pad: string, r: Register)
    requires |b| == 2 && r.bits == 0 && (pad == "" || pad[0] == '=')
    ensures Decoded(Encoded(b) + pad, r) == Some(r.out + b)
  {
    var n := DecodeThree(b[0], b[1], 0, pad, r);
    PadEnds(pad, n);
    assert b == [b[0], b[1]];
  }

  lemma PadEnds(pad: string, r: Register)
    requires pad == "" || pad[0] == '='
    ensures Decoded(pad, r) == Some(r.out)
  {
  }

  lemma {:induction false} DecodeEncoded(b: seq<Byte>, pad: string, r: Register)
    requires r.bits == 0 && (pad == "" || pad[0] == '=')
    ensures Decoded(Encoded(b) + pad, r) == Some(r.out + b)
  {
    if |b| == 0 {
      DecodeNoByte(b, pad, r);
    } else if |b| == 1 {
      DecodeOneByte(b, pad, r);
    } else if |b| == 2 {
      DecodeTwoBytes(b, pad, r);
    } else {
      var n := DecodeFour(b[0], b[1], b[2], Encoded(b[3..]) + pad, r);
      DecodeEncoded(b[3..], pad, n);
      Joins(r.out, [b[0], b[1], b[2]], b[3..]);
      assert b == [b[0], b[1], b[2]] + b[3..];
      Joins(Quad(b[0], b[1], b[2]), Encoded(b[3..]), pad);
    }
  }

  /** Blanks anywhere, any amount of padding: decoding undoes the encoder. */
  lemma DecodeUndoesEncode(b: seq<Byte>, text: string, pad: string)
    requires NonSpace(text) == Encoded(b) + pad
    requires forall i | 0 <= i < |pad| :: pad[i] == '='
    ensures Decoded(NonSpace(text), EMPTY) == Some(b)
  {
    DecodeEncoded(b, pad, EMPTY);
    assert EMPTY.out + b == b;
  }

  // --- What is accepted -------------------------------------------------------------------

  /** Every character up to the first `=` is a letter of the alphabet or lies outside ASCII. */
  ghost predicate Acceptable(t: string) {
    forall i | 0 <= i < |t| && (forall j | 0 <= j <= i :: t[j] != '=') ::
      t[i] as int >= 128 || exists v | 0 <= v < 64 :: t[i] == Letter(v)
  }

  lemma TableIff(c: char)
    ensures Table(c) >= 0 <==> c as int >= 128 || exists v | 0 <= v < 64 :: c == Letter(v)
  {
    forall v | 0 <= v < 64 && c == Letter(v) ensures Table(c) >= 0 { LetterTable(v); }
    if Table(c) >= 0 && c as int < 128 {
      assert c == Letter(Table(c));
    }
  }

  /** The decoder rejects exactly the texts with a foreign ASCII character before the padding. */
  lemma {:induction false} AcceptedIff(t: string, r: Register)
    ensures Decoded(t, r).Some? <==> Acceptable(t)
  {
    if t != "" && t[0] != '=' {
      TableIff(t[0]);
      if Table(t[0]) >= 0 {
        AcceptedIff(t[1..], Shifted(r, Table(t[0]) as bv32));
        AcceptableTail(t);
      }
    }
  }

  lemma AcceptableTail(t: string)
    requires t != "" && t[0] != '=' && Table(t[0]) >= 0
    ensures Acceptable(t) <==> Acceptable(t[1..])
  {
    TableIff(t[0]);
    var u := t[1..];
    if Acceptable(t) {
      forall i | 0 <= i < |u| && (forall j | 0 <= j <= i :: u[j] != '=')
        ensures u[i] as int >= 128 || exists v | 0 <= v < 64 :: u[i] == Letter(v)
      {
        forall j | 0 <= j <= i + 1 ensures t[j] != '=' {
          if j > 0 { assert u[j - 1] != '='; }
        }
        assert t[i + 1] == u[i];
      }
    }
    if Acceptable(u) {
      forall i | 0 <= i < |t| && (forall j | 0 <= j <= i :: t[j] != '=')
        ensures t[i] as int >= 128 || exists v | 0 <= v < 64 :: t[i] == Letter(v)
      {
        if i > 0 {
          forall j | 0 <= j <= i - 1 ensures u[j] != '=' { assert t[j + 1] != '='; }
          assert u[i - 1] == t[i];
        }
      }
    }
  }
}
