/** The content hash of cover art: the service's own SHA-256, proved to be the standard one. */
module ContentHash {
  import opened Text
  import opened Sha256

  // --- One block --------------------------------------------------------------------------

  function Rotr(value: Word, bits: bv6): Word
    requires 0 < bits < 32
  {
    (value >> bits) | (value << (32 - bits))
  }

  /** Two shifts and an or rotate. */
  lemma RotrRotates(x: Word)
    ensures Rotr(x, 2) == x.RotateRight(2) && Rotr(x, 13) == x.RotateRight(13) && Rotr(x, 22) == x.RotateRight(22)
    ensures Rotr(x, 6) == x.RotateRight(6) && Rotr(x, 11) == x.RotateRight(11) && Rotr(x, 25) == x.RotateRight(25)
    ensures Rotr(x, 7) == x.RotateRight(7) && Rotr(x, 18) == x.RotateRight(18)
    ensures Rotr(x, 17) == x.RotateRight(17) && Rotr(x, 19) == x.RotateRight(19)
  {
  }

  lemma RotrSigma1(x: Word)
    ensures Xor(Rotr(x, 6), Rotr(x, 11), Rotr(x, 25)) == BigSigma1(x)
  {
    RotrRotates(x);
  }

  lemma RotrSigma0(x: Word)
    ensures Xor(Rotr(x, 2), Rotr(x, 13), Rotr(x, 22)) == BigSigma0(x)
  {
    RotrRotates(x);
  }

  lemma RotrSmallSigma(x: Word)
    ensures Xor(Rotr(x, 7), Rotr(x, 18), x >> 3) == SmallSigma0(x)
    ensures Xor(Rotr(x, 17), Rotr(x, 19), x >> 10) == SmallSigma1(x)
  {
    RotrRotates(x);
  }

  lemma Choice(x: Word, y: Word, z: Word)
    ensures (x & y) ^ (!x & z) == Ch(x, y, z)
  {
  }

  lemma Majority(x: Word, y: Word, z: Word)
    ensures Xor(x & y, x & z, y & z) == Maj(x, y, z)
  {
  }

  /** The array holds the first `n` words of the schedule of `block`. */
  ghost predicate Scheduled(w: array<Word>, block: Block, n: nat)
    requires w.Length == 64 && n <= 64
    reads w
  {
    forall t | 0 <= t < n :: w[t] == W(block, t)
  }

  method NextWord(block: Block, i: nat, w2: Word, w7: Word, w15: Word, w16: Word) returns (word: Word)
    requires 16 <= i < 64
    requires w2 == W(block, i - 2) && w7 == W(block, i - 7) && w15 == W(block, i - 15) && w16 == W(block, i - 16)
    ensures word == W(block, i)
  {
    RotrSmallSigma(w15);
    RotrSmallSigma(w2);
    var s0 := Xor(Rotr(w15, 7), Rotr(w15, 18), w15 >> 3);
    var s1 := Xor(Rotr(w2, 17), Rotr(w2, 19), w2 >> 10);
    AnyOrder(w16, s0, w7, s1);
    word := Sum4(w16, s0, w7, s1);
  }

  lemma AnyOrder(a: Word, b: Word, c: Word, d: Word)
    ensures Sum4(a, b, c, d) == Sum4(d, c, b, a)
  {
  }

  method Schedule(block: Block) returns (w: array<Word>)
    ensures fresh(w) && w.Length == 64 && Scheduled(w, block, 64)
  {
    w := new Word[64];
    for i := 0 to 16
      invariant Scheduled(w, block, i)
    {
      w[i] := BlockWord(block, i);
    }
    for i := 16 to 64
      invariant Scheduled(w, block, i)
    {
      w[i] := NextWord(block, i, w[i - 2], w[i - 7], w[i - 15], w[i - 16]);
    }
  }

  method OneRound(v: Vars, k: Word, w: Word) returns (n: Vars)
    ensures n == Round(v, k, w)
  {
    RotrSigma1(v.e);
    RotrSigma0(v.a);
    Choice(v.e, v.f, v.g);
    Majority(v.a, v.b, v.c);
    var s1 := Xor(Rotr(v.e, 6), Rotr(v.e, 11), Rotr(v.e, 25));
    var ch := (v.e & v.f) ^ (!v.e & v.g);
    var temp1 := Sum5(v.h, s1, ch, k, w);
    var s0 := Xor(Rotr(v.a, 2), Rotr(v.a, 13), Rotr(v.a, 22));
    var maj := Xor(v.a & v.b, v.a & v.c, v.b & v.c);
    var temp2 := Sum(s0, maj);
    n := Vars(Sum(temp1, temp2), v.a, v.b, v.c, Sum(v.d, temp1), v.e, v.f, v.g);
  }

  method Mix(state: array<Word>, w: array<Word>, block: Block) returns (v: Vars)
    requires state.Length == 8 && w.Length == 64 && Scheduled(w, block, 64)
    ensures v == Rounds(state[..], block, |K|)
  {
    v := Start(state[..]);
    for i := 0 to |K|
      invariant v == Rounds(state[..], block, i)
    {
      v := OneRound(v, K[i], w[i]);
    }
  }

  method AddTo(state: array<Word>, v: Vars)
    requires state.Length == 8
    modifies state
    ensures state[0] == Sum(old(state[0]), v.a) && state[1] == Sum(old(state[1]), v.b)
    ensures state[2] == Sum(old(state[2]), v.c) && state[3] == Sum(old(state[3]), v.d)
    ensures state[4] == Sum(old(state[4]), v.e) && state[5] == Sum(old(state[5]), v.f)
    ensures state[6] == Sum(old(state[6]), v.g) && state[7] == Sum(old(state[7]), v.h)
  {
    state[0] := Sum(state[0], v.a);
    state[1] := Sum(state[1], v.b);
    state[2] := Sum(state[2], v.c);
    state[3] := Sum(state[3], v.d);
    state[4] := Sum(state[4], v.e);
    state[5] := Sum(state[5], v.f);
    state[6] := Sum(state[6], v.g);
    state[7] := Sum(state[7], v.h);
  }

  method Transform(state: array<Word>, block: Block)
    requires state.Length == 8
    modifies state
    ensures state[..] == Compress(old(state[..]), block)
  {
    var w := Schedule(block);
    var v := Mix(state, w, block);
    AddTo(state, v);
  }

  // --- Padding ----------------------------------------------------------------------------

  /** The zero loop stops at the least count, so it stops there and nowhere else. */
  lemma ZeroLoopGoesOn(n: nat, k: nat)
    requires k <= ZeroBytes(n)
    ensures (n + 1 + k) % 64 == 56 <==> k == ZeroBytes(n)
  {
  }

  method PadZeros(bytes: seq<Byte>) returns (padded: seq<Byte>)
    ensures padded == bytes + [0x80] + Zeros(ZeroBytes(|bytes|))
  {
    padded := bytes;
    padded := padded + [0x80];
    ghost var k: nat := 0;
    ZeroLoopGoesOn(|bytes|, 0);
    while |padded| % 64 != 56
      invariant k <= ZeroBytes(|bytes|) && padded == bytes + [0x80] + Zeros(k)
      decreases ZeroBytes(|bytes|) - k
    {
      ZeroLoopGoesOn(|bytes|, k);
      OneMoreZero(bytes + [0x80], k);
      padded := padded + [0];
      k := k + 1;
    }
    ZeroLoopGoesOn(|bytes|, k);
  }

  lemma OneMoreZero(s: seq<Byte>, k: nat)
    ensures s + Zeros(k) + [0] == s + Zeros(k + 1)
  {
  }

  method AppendLength(front: seq<Byte>, bitLen: bv64) returns (padded: seq<Byte>)
    ensures padded == front + LengthBytes(bitLen)
  {
    padded := front;
    for i := 8 downto 0
      invariant padded == front + LengthBytes(bitLen)[..8 - i]
    {
      padded := padded + [LengthByte(bitLen, i)];
    }
    assert LengthBytes(bitLen)[..8] == LengthBytes(bitLen);
  }

  method Pad(bytes: seq<Byte>) returns (padded: seq<Byte>)
    ensures padded == Padded(bytes)
  {
    padded := PadZeros(bytes);
    padded := AppendLength(padded, BitLength(bytes));
  }

  // --- The hexadecimal form ---------------------------------------------------------------

  function HexChar(d: nat): (c: char)
    requires d < 16
    ensures IsHex(c) && HexDigit(c) == d && !('A' <= c <= 'F')
  {
    if d < 10 then '0' + d as char else 'a' + (d - 10) as char
  }

  /** `std::hex`: no more digits than the number needs. */
  function HexOf(n: nat): (s: string)
    ensures s != "" && forall i | 0 <= i < |s| :: IsHex(s[i]) && !('A' <= s[i] <= 'F')
  {
    if n < 16 then [HexChar(n)] else HexOf(n / 16) + [HexChar(n % 16)]
  }

  /** `std::setw` with fill character `0`. */
  function Filled(s: string, width: nat): string {
    seq(if |s| < width then width - |s| else 0, _ => '0') + s
  }

  function HexWord(w: Word): string { Filled(HexOf(w as nat), 8) }

  function Hex(words: seq<Word>): string {
    if words == [] then "" else HexWord(words[0]) + Hex(words[1..])
  }

  function Pow16(k: nat): (p: nat)
    ensures p > 0
  {
    if k == 0 then 1 else 16 * Pow16(k - 1)
  }

  lemma {:induction false} HexOfLength(n: nat, k: nat)
    requires 0 < k && n < Pow16(k)
    ensures |HexOf(n)| <= k
    decreases k
  {
    if n >= 16 {
      HexOfLength(n / 16, k - 1);
    }
  }

  lemma {:induction false} HexOfValue(n: nat)
    ensures HexValue(HexOf(n)) == n
  {
    var s := HexOf(n);
    if n < 16 {
      assert s[..0] == "";
    } else {
      HexOfValue(n / 16);
      assert s[..|s| - 1] == HexOf(n / 16);
    }
  }

  lemma {:induction false} FillKeepsValue(zeros: string, s: string)
    requires forall i | 0 <= i < |zeros| :: zeros[i] == '0'
    requires forall i | 0 <= i < |s| :: IsHex(s[i])
    ensures HexValue(zeros + s) == HexValue(s)
    decreases |zeros| + |s|
  {
    var t := zeros + s;
    if s != "" {
      assert t[..|t| - 1] == zeros + s[..|s| - 1];
      FillKeepsValue(zeros, s[..|s| - 1]);
    } else if zeros != "" {
      assert t[..|t| - 1] == zeros[..|zeros| - 1] + s;
      FillKeepsValue(zeros[..|zeros| - 1], s);
    } else {
      assert t == s;
    }
  }

  lemma WordBelow(w: Word)
    ensures w as nat < 0x1_0000_0000 && (w as nat) as Word == w
  {
  }

  /** Every word takes exactly eight lower-case digits, which denote it. */
  lemma HexWordRoundTrip(w: Word)
    ensures |HexWord(w)| == 8 && (forall i | 0 <= i < 8 :: IsHex(HexWord(w)[i]) && !('A' <= HexWord(w)[i] <= 'F'))
    ensures HexValue(HexWord(w)) == w as nat
  {
    WordBelow(w);
    assert Pow16(8) == 0x1_0000_0000 by {
      assert Pow16(4) == 0x1_0000;
    }
    HexOfLength(w as nat, 8);
    HexOfValue(w as nat);
    var s := HexOf(w as nat);
    FillKeepsValue(seq(8 - |s|, _ => '0'), s);
  }

  lemma {:induction false} HexDigits(words: seq<Word>)
    ensures |Hex(words)| == 8 * |words|
    ensures forall i | 0 <= i < |Hex(words)| :: IsHex(Hex(words)[i]) && !('A' <= Hex(words)[i] <= 'F')
  {
    if words != [] {
      HexWordRoundTrip(words[0]);
      HexDigits(words[1..]);
    }
  }

  /** The words stand in the text in their order, eight digits each. */
  lemma {:induction false} HexAt(words: seq<Word>, i: nat)
    requires i < |words|
    ensures 8 * i + 8 <= |Hex(words)| && Hex(words)[8 * i..8 * i + 8] == HexWord(words[i])
  {
    hide HexWord;
    HexDigits(words);
    HexDigits(words[1..]);
    HexWordRoundTrip(words[0]);
    if i > 0 {
      HexAt(words[1..], i - 1);
      Behind(HexWord(words[0]), Hex(words[1..]), 8 * (i - 1));
    } else {
      Behind("", HexWord(words[0]), 0);
    }
  }

  lemma Behind(a: string, b: string, k: nat)
    requires k + 8 <= |b|
    ensures (a + b)[|a| + k..|a| + k + 8] == b[k..k + 8]
  {
  }

  lemma {:induction false} HexInjective(a: seq<Word>, b: seq<Word>)
    requires |a| == |b| && Hex(a) == Hex(b)
    ensures a == b
  {
    if a != [] {
      HexWordRoundTrip(a[0]);
      HexWordRoundTrip(b[0]);
      assert HexWord(a[0]) == Hex(a)[..8];
      assert HexWord(b[0]) == Hex(b)[..8];
      WordBelow(a[0]);
      WordBelow(b[0]);
      assert Hex(a[1..]) == Hex(a)[8..];
      assert Hex(b[1..]) == Hex(b)[8..];
      HexInjective(a[1..], b[1..]);
      assert a == [a[0]] + a[1..] && b == [b[0]] + b[1..];
    }
  }

  lemma {:induction false} HexSnoc(words: seq<Word>, w: Word)
    ensures Hex(words + [w]) == Hex(words) + HexWord(w)
  {
    if words == [] {
      assert [w][1..] == [];
      assert Hex([w]) == HexWord(w) + "";
    } else {
      assert (words + [w])[1..] == words[1..] + [w];
      HexSnoc(words[1..], w);
      Joins(HexWord(words[0]), Hex(words[1..]), HexWord(w));
    }
  }

  // --- The whole hash ---------------------------------------------------------------------

  method HashBlocks(state: array<Word>, padded: seq<Byte>)
    requires state.Length == 8 && |padded| % 64 == 0
    modifies state
    ensures state[..] == Blocks(old(state[..]), padded)
  {
    var offset := 0;
    ghost var target := Blocks(state[..], padded);
    assert padded[0..] == padded;
    while offset < |padded|
      invariant offset <= |padded| && offset % 64 == 0
      invariant Blocks(state[..], padded[offset..]) == target
    {
      BlockFits(|padded|, offset);
      assert padded[offset..][..64] == padded[offset..offset + 64];
      assert padded[offset..][64..] == padded[offset + 64..];
      Transform(state, padded[offset..offset + 64]);
      offset := offset + 64;
    }
  }

  method HexText(state: array<Word>) returns (hex: string)
    requires state.Length == 8
    ensures hex == Hex(state[..])
  {
    hex := "";
    for i := 0 to 8
      invariant hex == Hex(state[..i])
    {
      HexSnoc(state[..i], state[i]);
      assert state[..i + 1] == state[..i] + [state[i]];
      hex := hex + HexWord(state[i]);
    }
    assert state[..8] == state[..];
  }

  method Sha256Hex(bytes: seq<Byte>) returns (hex: string)
    ensures hex == Hex(Digest(bytes))
    ensures |hex| == 64 && forall i | 0 <= i < 64 :: IsHex(hex[i]) && !('A' <= hex[i] <= 'F')
  {
    var state := new Word[8](i requires 0 <= i < 8 => INITIAL[i]);
    assert state[..] == INITIAL;
    var padded := Pad(bytes);
    PaddedIsWholeBlocks(bytes);
    HashBlocks(state, padded);
    hex := HexText(state);
    HexDigits(Digest(bytes));
  }

  lemma BlockFits(n: nat, offset: nat)
    requires n % 64 == 0 && offset % 64 == 0 && offset < n
    ensures offset + 64 <= n && (offset + 64) % 64 == 0
  {
  }

  /** Two hashes are the same text just when the digests are the same. */
  lemma SameHexIff(a: seq<Byte>, b: seq<Byte>)
    ensures Hex(Digest(a)) == Hex(Digest(b)) <==> Digest(a) == Digest(b)
  {
    if Hex(Digest(a)) == Hex(Digest(b)) {
      HexInjective(Digest(a), Digest(b));
    }
  }
}
