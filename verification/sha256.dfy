/** The secure hash of FIPS 180-4: constants (4.2.2, 5.3.3), padding (5.1.1), computation (6.2.2). */
module Sha256 {
  import opened Text

  type Word = bv32

  /** Eight rows of eight. */
  const K: seq<Word> := K0 + K1 + K2 + K3 + K4 + K5 + K6 + K7

  const K0: seq<Word> := [0x428a2f98, 0x71374491, 0xb5c0fbcf, 0xe9b5dba5, 0x3956c25b, 0x59f111f1, 0x923f82a4, 0xab1c5ed5]
  const K1: seq<Word> := [0xd807aa98, 0x12835b01, 0x243185be, 0x550c7dc3, 0x72be5d74, 0x80deb1fe, 0x9bdc06a7, 0xc19bf174]
  const K2: seq<Word> := [0xe49b69c1, 0xefbe4786, 0x0fc19dc6, 0x240ca1cc, 0x2de92c6f, 0x4a7484aa, 0x5cb0a9dc, 0x76f988da]
  const K3: seq<Word> := [0x983e5152, 0xa831c66d, 0xb00327c8, 0xbf597fc7, 0xc6e00bf3, 0xd5a79147, 0x06ca6351, 0x14292967]
  const K4: seq<Word> := [0x27b70a85, 0x2e1b2138, 0x4d2c6dfc, 0x53380d13, 0x650a7354, 0x766a0abb, 0x81c2c92e, 0x92722c85]
  const K5: seq<Word> := [0xa2bfe8a1, 0xa81a664b, 0xc24b8b70, 0xc76c51a3, 0xd192e819, 0xd6990624, 0xf40e3585, 0x106aa070]
  const K6: seq<Word> := [0x19a4c116, 0x1e376c08, 0x2748774c, 0x34b0bcb5, 0x391c0cb3, 0x4ed8aa4a, 0x5b9cca4f, 0x682e6ff3]
  const K7: seq<Word> := [0x748f82ee, 0x78a5636f, 0x84c87814, 0x8cc70208, 0x90befffa, 0xa4506ceb, 0xbef9a3f7, 0xc67178f2]

  const INITIAL: seq<Word> := [
    0x6a09e667, 0xbb67ae85, 0x3c6ef372, 0xa54ff53a, 0x510e527f, 0x9b05688c, 0x1f83d9ab, 0x5be0cd19]

  // --- Functions of section 4.1.2 ---------------------------------------------------------

  function Xor(x: Word, y: Word, z: Word): Word { x ^ y ^ z }

  /** Addition modulo 2^32. */
  function Sum(x: Word, y: Word): Word { x + y }
  function Sum4(x: Word, y: Word, z: Word, u: Word): Word { x + y + z + u }
  function Sum5(x: Word, y: Word, z: Word, u: Word, v: Word): Word { x + y + z + u + v }

  function Ch(x: Word, y: Word, z: Word): Word { (x & y) ^ (!x & z) }
  function Maj(x: Word, y: Word, z: Word): Word { Xor(x & y, x & z, y & z) }
  function BigSigma0(x: Word): Word { Xor(x.RotateRight(2), x.RotateRight(13), x.RotateRight(22)) }
  function BigSigma1(x: Word): Word { Xor(x.RotateRight(6), x.RotateRight(11), x.RotateRight(25)) }
  function SmallSigma0(x: Word): Word { Xor(x.RotateRight(7), x.RotateRight(18), x >> 3) }
  function SmallSigma1(x: Word): Word { Xor(x.RotateRight(17), x.RotateRight(19), x >> 10) }

  // --- Computation ------------------------------------------------------------------------

  type Block = b: seq<Byte> | |b| == 64 witness seq(64, _ => 0)
  type State = s: seq<Word> | |s| == 8 witness seq(8, _ => 0)

  /** A word of the block, its first byte the most significant. */
  function BlockWord(block: Block, t: nat): Word
    requires t < 16
  {
    (block[4 * t] as Word << 24) | (block[4 * t + 1] as Word << 16) | (block[4 * t + 2] as Word << 8)
      | block[4 * t + 3] as Word
  }

  /** The message schedule. */
  function W(block: Block, t: nat): Word
    requires t < 64
  {
    if t < 16 then BlockWord(block, t)
    else Sum4(SmallSigma1(W(block, t - 2)), W(block, t - 7), SmallSigma0(W(block, t - 15)), W(block, t - 16))
  }

  datatype Vars = Vars(a: Word, b: Word, c: Word, d: Word, e: Word, f: Word, g: Word, h: Word)

  function Start(s: State): Vars { Vars(s[0], s[1], s[2], s[3], s[4], s[5], s[6], s[7]) }

  function Round(v: Vars, k: Word, w: Word): Vars {
    var t1 := Sum5(v.h, BigSigma1(v.e), Ch(v.e, v.f, v.g), k, w);
    var t2 := Sum(BigSigma0(v.a), Maj(v.a, v.b, v.c));
    Vars(Sum(t1, t2), v.a, v.b, v.c, Sum(v.d, t1), v.e, v.f, v.g)
  }

  /** The working variables after `t` rounds. */
  function Rounds(s: State, block: Block, t: nat): Vars
    requires t <= 64
  {
    if t == 0 then Start(s) else Round(Rounds(s, block, t - 1), K[t - 1], W(block, t - 1))
  }

  function Added(s: State, v: Vars): State {
    [Sum(s[0], v.a), Sum(s[1], v.b), Sum(s[2], v.c), Sum(s[3], v.d),
     Sum(s[4], v.e), Sum(s[5], v.f), Sum(s[6], v.g), Sum(s[7], v.h)]
  }

  function Compress(s: State, block: Block): State { Added(s, Rounds(s, block, |K|)) }

  function Blocks(s: State, m: seq<Byte>): State
    decreases |m|
  {
    if |m| < 64 then s else Blocks(Compress(s, m[..64]), m[64..])
  }

  // --- Padding ----------------------------------------------------------------------------

  /** The number of zero bytes: the least that leaves 56 bytes modulo 64. */
  function ZeroBytes(n: nat): (k: nat)
    ensures k < 64 && (n + 1 + k) % 64 == 56
  {
    (119 - n % 64) % 64
  }

  function Zeros(k: nat): (z: seq<Byte>)
    ensures |z| == k && forall i | 0 <= i < k :: z[i] == 0
  {
    seq(k, _ => 0)
  }

  /** The length in bits, as a 64-bit number. */
  function BitLength(m: seq<Byte>): bv64 {
    ((|m| % 0x1_0000_0000_0000_0000) as bv64) * 8
  }

  /** `(l >> (8 * i)) & 0xFF`. */
  function LengthByte(l: bv64, i: nat): Byte
    requires i < 8
  {
    var shifted := match i
      case 0 => l
      case 1 => l >> 8
      case 2 => l >> 16
      case 3 => l >> 24
      case 4 => l >> 32
      case 5 => l >> 40
      case 6 => l >> 48
      case _ => l >> 56;
    (shifted & 0xFF) as Byte
  }

  /** A 64-bit number, its most significant byte first. */
  function LengthBytes(l: bv64): seq<Byte> { seq(8, i requires 0 <= i < 8 => LengthByte(l, 7 - i)) }

  function Padded(m: seq<Byte>): seq<Byte> {
    m + [0x80] + Zeros(ZeroBytes(|m|)) + LengthBytes(BitLength(m))
  }

  function Digest(m: seq<Byte>): State { Blocks(INITIAL, Padded(m)) }

  lemma EightMore(n: nat)
    requires n % 64 == 56
    ensures (n + 8) % 64 == 0
  {
  }

  /** The padded message is the shortest sequence of whole blocks that holds the message and nine more bytes. */
  lemma PaddedIsWholeBlocks(m: seq<Byte>)
    ensures |Padded(m)| % 64 == 0 && |m| + 9 <= |Padded(m)| < |m| + 73
  {
    EightMore(|m| + 1 + ZeroBytes(|m|));
  }

  lemma PaddedAt(m: seq<Byte>, i: nat)
    requires i < |Padded(m)| - 8
    ensures Padded(m)[i] == if i < |m| then m[i] else if i == |m| then 0x80 else 0
  {
  }

  /** Different messages are padded differently, whatever their lengths. */
  lemma PaddingInjective(m: seq<Byte>, n: seq<Byte>)
    requires Padded(m) == Padded(n)
    ensures m == n
  {
    if |m| < |n| {
      PaddedAt(m, |n|);
      PaddedAt(n, |n|);
      assert false;
    } else if |n| < |m| {
      PaddedAt(m, |m|);
      PaddedAt(n, |m|);
      assert false;
    } else {
      assert m == Padded(m)[..|m|];
      assert n == Padded(n)[..|n|];
    }
  }

  function Number(b: seq<Byte>): bv64
    requires |b| == 8
  {
    (b[0] as bv64 << 56) | (b[1] as bv64 << 48) | (b[2] as bv64 << 40) | (b[3] as bv64 << 32) |
    (b[4] as bv64 << 24) | (b[5] as bv64 << 16) | (b[6] as bv64 << 8) | b[7] as bv64
  }

  /** The last eight bytes spell the length. */
  lemma LengthField(m: seq<Byte>)
    ensures Number(Padded(m)[|Padded(m)| - 8..]) == BitLength(m)
  {
  }
}
