/** Where the constants of FIPS 180-4 come from: the fractional parts of roots of primes (4.2.2, 5.3.3). */
module Sha256Constants {
  import opened Sha256

  /** The first 64 primes, in eight rows as well. */
  const PRIMES: seq<nat> := P0 + P1 + P2 + P3 + P4 + P5 + P6 + P7

  const P0: seq<nat> := [2, 3, 5, 7, 11, 13, 17, 19]
  const P1: seq<nat> := [23, 29, 31, 37, 41, 43, 47, 53]
  const P2: seq<nat> := [59, 61, 67, 71, 73, 79, 83, 89]
  const P3: seq<nat> := [97, 101, 103, 107, 109, 113, 127, 131]
  const P4: seq<nat> := [137, 139, 149, 151, 157, 163, 167, 173]
  const P5: seq<nat> := [179, 181, 191, 193, 197, 199, 211, 223]
  const P6: seq<nat> := [227, 229, 233, 239, 241, 251, 257, 263]
  const P7: seq<nat> := [269, 271, 277, 281, 283, 293, 307, 311]

  const TWO32 := 0x1_0000_0000

  function Square(x: nat): nat { x * x }
  function Cube(x: nat): nat { x * x * x }

  /** `k` is the first 32 bits of the fractional part of the cube root of `p`, whose whole part is `c`. */
  ghost predicate CubeBits(p: nat, c: nat, k: nat) {
    Cube(c * TWO32 + k) <= p * Cube(TWO32) < Cube(c * TWO32 + k + 1)
  }

  ghost predicate SquareBits(p: nat, c: nat, k: nat) {
    Square(c * TWO32 + k) <= p * Square(TWO32) < Square(c * TWO32 + k + 1)
  }

  ghost predicate CubeRootOf(p: nat, k: nat) { exists c :: CubeBits(p, c, k) }
  ghost predicate SquareRootOf(p: nat, k: nat) { exists c :: SquareBits(p, c, k) }

  ghost predicate IsCubeRoot(p: nat, word: Word) { CubeRootOf(p, word as nat) }
  ghost predicate IsSquareRoot(p: nat, word: Word) { SquareRootOf(p, word as nat) }

  ghost predicate RowOfRoots(primes: seq<nat>, words: seq<Word>) {
    |primes| == |words| && forall t | 0 <= t < |words| :: IsCubeRoot(primes[t], words[t])
  }

  lemma Row(primes: seq<nat>, words: seq<Word>, wholes: seq<nat>)
    requires |primes| == |words| == |wholes|
    requires forall t | 0 <= t < |words| :: CubeBits(primes[t], wholes[t], words[t] as nat)
    ensures RowOfRoots(primes, words)
  {
  }

  lemma Roots0()
    ensures |K0| == 8 && RowOfRoots(P0, K0)
  {
    Row(P0, K0, [1, 1, 1, 1, 2, 2, 2, 2]);
  }

  lemma Roots1()
    ensures |K1| == 8 && RowOfRoots(P1, K1)
  {
    Row(P1, K1, [2, 3, 3, 3, 3, 3, 3, 3]);
  }

  lemma Roots2()
    ensures |K2| == 8 && RowOfRoots(P2, K2)
  {
    Row(P2, K2, [3, 3, 4, 4, 4, 4, 4, 4]);
  }

  lemma Roots3()
    ensures |K3| == 8 && RowOfRoots(P3, K3)
  {
    Row(P3, K3, [4, 4, 4, 4, 4, 4, 5, 5]);
  }

  lemma Roots4()
    ensures |K4| == 8 && RowOfRoots(P4, K4)
  {
    Row(P4, K4, [5, 5, 5, 5, 5, 5, 5, 5]);
  }

  lemma Roots5()
    ensures |K5| == 8 && RowOfRoots(P5, K5)
  {
    Row(P5, K5, [5, 5, 5, 5, 5, 5, 5, 6]);
  }

  lemma Roots6()
    ensures |K6| == 8 && RowOfRoots(P6, K6)
  {
    Row(P6, K6, [6, 6, 6, 6, 6, 6, 6, 6]);
  }

  lemma Roots7()
    ensures |K7| == 8 && RowOfRoots(P7, K7)
  {
    Row(P7, K7, [6, 6, 6, 6, 6, 6, 6, 6]);
  }

  lemma RowsJoin(p: seq<nat>, q: seq<nat>, a: seq<Word>, b: seq<Word>)
    requires RowOfRoots(p, a) && RowOfRoots(q, b)
    ensures RowOfRoots(p + q, a + b)
  {
    hide IsCubeRoot;
  }

  /** The round constants are the fractional parts of the cube roots of the first 64 primes. */
  lemma RoundConstantsAreCubeRoots()
    ensures |PRIMES| == |K| == 64
    ensures forall t | 0 <= t < 64 :: IsCubeRoot(PRIMES[t], K[t])
  {
    hide IsCubeRoot;
    Roots0();
    Roots1();
    Roots2();
    Roots3();
    Roots4();
    Roots5();
    Roots6();
    Roots7();
    RowsJoin(P0, P1, K0, K1);
    RowsJoin(P0 + P1, P2, K0 + K1, K2);
    RowsJoin(P0 + P1 + P2, P3, K0 + K1 + K2, K3);
    RowsJoin(P0 + P1 + P2 + P3, P4, K0 + K1 + K2 + K3, K4);
    RowsJoin(P0 + P1 + P2 + P3 + P4, P5, K0 + K1 + K2 + K3 + K4, K5);
    RowsJoin(P0 + P1 + P2 + P3 + P4 + P5, P6, K0 + K1 + K2 + K3 + K4 + K5, K6);
    RowsJoin(P0 + P1 + P2 + P3 + P4 + P5 + P6, P7, K0 + K1 + K2 + K3 + K4 + K5 + K6, K7);
  }

  /** The initial hash value: the square roots of the first eight. */
  lemma InitialAreSquareRoots()
    ensures |INITIAL| == 8
    ensures forall t | 0 <= t < 8 :: IsSquareRoot(P0[t], INITIAL[t])
  {
    assert SquareBits(P0[0], 1, INITIAL[0] as nat);
    assert SquareBits(P0[1], 1, INITIAL[1] as nat);
    assert SquareBits(P0[2], 2, INITIAL[2] as nat);
    assert SquareBits(P0[3], 2, INITIAL[3] as nat);
    assert SquareBits(P0[4], 3, INITIAL[4] as nat);
    assert SquareBits(P0[5], 3, INITIAL[5] as nat);
    assert SquareBits(P0[6], 4, INITIAL[6] as nat);
    assert SquareBits(P0[7], 4, INITIAL[7] as nat);
  }
}
