/** The example of the standard: the one-block message "abc", with its published intermediate values. */
module Sha256Example {
  import opened Text
  import opened Sha256

  const ABC: seq<Byte> := [0x61, 0x62, 0x63]

  ghost predicate AbcBlock(b: Block) {
    b[0] == 0x61 && b[1] == 0x62 && b[2] == 0x63 && b[3] == 0x80 && b[63] == 24 && forall i | 4 <= i < 63 :: b[i] == 0
  }

  lemma AbcPadded()
    ensures |Padded(ABC)| == 64 && AbcBlock(Padded(ABC))
  {
    hide Padded, LengthBytes, BitLength;
    AbcParts();
    AbcLength();
    forall i | 0 <= i < 56 ensures Padded(ABC)[i] == if i < 3 then ABC[i] else if i == 3 then 0x80 else 0 {
      PaddedAt(ABC, i);
    }
  }

  lemma AbcParts()
    ensures |Padded(ABC)| == 64 && |LengthBytes(BitLength(ABC))| == 8
    ensures forall i | 56 <= i < 64 :: Padded(ABC)[i] == LengthBytes(BitLength(ABC))[i - 56]
  {
    hide BitLength, LengthByte;
    LastEight(ABC + [0x80] + Zeros(ZeroBytes(|ABC|)), LengthBytes(BitLength(ABC)));
  }

  lemma LastEight(a: seq<Byte>, b: seq<Byte>)
    requires |a| == 56 && |b| == 8
    ensures |a + b| == 64 && forall i | 56 <= i < 64 :: (a + b)[i] == b[i - 56]
  {
  }

  lemma AbcLength()
    ensures BitLength(ABC) == 24
    ensures forall i | 0 <= i < 8 :: LengthBytes(BitLength(ABC))[i] == if i == 7 then 24 else 0
  {
    hide LengthByte;
    assert BitLength(ABC) == 24;
    forall i | 0 <= i < 8 ensures LengthByte(24, i) == if i == 0 then 24 else 0 { ByteOf24(i); }
  }

  lemma ByteOf24(i: nat)
    requires i < 8
    ensures LengthByte(24, i) == if i == 0 then 24 else 0
  {
  }

  // --- The schedule -----------------------------------------------------------------------

  const S0: seq<Word> := [0x61626380, 0x00000000, 0x00000000, 0x00000000, 0x00000000, 0x00000000, 0x00000000, 0x00000000]
  const S1: seq<Word> := [0x00000000, 0x00000000, 0x00000000, 0x00000000, 0x00000000, 0x00000000, 0x00000000, 0x00000018]
  const S2: seq<Word> := [0x61626380, 0x000f0000, 0x7da86405, 0x600003c6, 0x3e9d7b78, 0x0183fc00, 0x12dcbfdb, 0xe2e2c38e]
  const S3: seq<Word> := [0xc8215c1a, 0xb73679a2, 0xe5bc3909, 0x32663c5b, 0x9d209d67, 0xec8726cb, 0x702138a4, 0xd3b7973b]
  const S4: seq<Word> := [0x93f5997f, 0x3b68ba73, 0xaff4ffc1, 0xf10a5c62, 0x0a8b3996, 0x72af830a, 0x9409e33e, 0x24641522]
  const S5: seq<Word> := [0x9f47bf94, 0xf0a64f5a, 0x3e246a79, 0x27333ba3, 0x0c4763f2, 0x840abf27, 0x7a290d5d, 0x065c43da]
  const S6: seq<Word> := [0xfb3e89cb, 0xcc7617db, 0xb9e66c34, 0xa9993667, 0x84badedd, 0xc21462bc, 0x1487472c, 0xb20f7a99]
  const S7: seq<Word> := [0xef57b9cd, 0xebe6b238, 0x9fe3095e, 0x78bc8d4b, 0xa43fcf15, 0x668b2ff8, 0xeeaba2cc, 0x12b1edeb]

  /** Words `t` to `t + 7` of the schedule. */
  ghost predicate RowAt(b: Block, t: nat, row: seq<Word>) {
    |row| == 8 && t <= 56 && forall i | 0 <= i < 8 :: W(b, t + i) == row[i]
  }

  lemma FirstRows(b: Block)
    requires AbcBlock(b)
    ensures RowAt(b, 0, S0) && RowAt(b, 8, S1)
  {
    assert W(b, 0) == BlockWord(b, 0) == 0x61626380;
    assert W(b, 15) == BlockWord(b, 15) == 0x18;
    forall t | 1 <= t < 15 ensures W(b, t) == 0 { ZeroWord(b, t); }
  }

  lemma ZeroWord(b: Block, t: nat)
    requires 1 <= t < 15 && AbcBlock(b)
    ensures W(b, t) == 0
  {
    assert b[4 * t] == 0 && b[4 * t + 1] == 0 && b[4 * t + 2] == 0 && b[4 * t + 3] == 0;
  }

  function Next(w2: Word, w7: Word, w15: Word, w16: Word): Word { Sum4(SmallSigma1(w2), w7, SmallSigma0(w15), w16) }

  /** A row follows from the two before it. */
  lemma RowFollows(b: Block, t: nat, p: seq<Word>, q: seq<Word>, r: seq<Word>)
    requires t <= 40 && RowAt(b, t, p) && RowAt(b, t + 8, q) && |r| == 8
    requires r[0] == Next(q[6], q[1], p[1], p[0]) && r[1] == Next(q[7], q[2], p[2], p[1])
    requires r[2] == Next(r[0], q[3], p[3], p[2]) && r[3] == Next(r[1], q[4], p[4], p[3])
    requires r[4] == Next(r[2], q[5], p[5], p[4]) && r[5] == Next(r[3], q[6], p[6], p[5])
    requires r[6] == Next(r[4], q[7], p[7], p[6]) && r[7] == Next(r[5], r[0], q[0], p[7])
    ensures RowAt(b, t + 16, r)
  {
    hide SmallSigma0, SmallSigma1, Sum4;
    assert W(b, t + 16) == r[0] && W(b, t + 17) == r[1];
    assert W(b, t + 18) == r[2] && W(b, t + 19) == r[3];
    assert W(b, t + 20) == r[4] && W(b, t + 21) == r[5];
    assert W(b, t + 22) == r[6] && W(b, t + 23) == r[7];
  }

  lemma Row2(b: Block)
    requires RowAt(b, 0, S0) && RowAt(b, 8, S1)
    ensures RowAt(b, 16, S2)
  {
    RowFollows(b, 0, S0, S1, S2);
  }

  lemma Row3(b: Block)
    requires RowAt(b, 8, S1) && RowAt(b, 16, S2)
    ensures RowAt(b, 24, S3)
  {
    RowFollows(b, 8, S1, S2, S3);
  }

  lemma Row4(b: Block)
    requires RowAt(b, 16, S2) && RowAt(b, 24, S3)
    ensures RowAt(b, 32, S4)
  {
    RowFollows(b, 16, S2, S3, S4);
  }

  lemma Row5(b: Block)
    requires RowAt(b, 24, S3) && RowAt(b, 32, S4)
    ensures RowAt(b, 40, S5)
  {
    RowFollows(b, 24, S3, S4, S5);
  }

  lemma Row6(b: Block)
    requires RowAt(b, 32, S4) && RowAt(b, 40, S5)
    ensures RowAt(b, 48, S6)
  {
    RowFollows(b, 32, S4, S5, S6);
  }

  lemma Row7(b: Block)
    requires RowAt(b, 40, S5) && RowAt(b, 48, S6)
    ensures RowAt(b, 56, S7)
  {
    RowFollows(b, 40, S5, S6, S7);
  }

  // --- The rounds -------------------------------------------------------------------------

  const V0 := Vars(0x6a09e667, 0xbb67ae85, 0x3c6ef372, 0xa54ff53a, 0x510e527f, 0x9b05688c, 0x1f83d9ab, 0x5be0cd19)
  const V1 := Vars(0x85a07b5f, 0xe5030380, 0x2b4209f5, 0x04409a6a, 0x0c657a79, 0x9b27a401, 0x714260ad, 0x43ada245)
  const V2 := Vars(0xb0fa238e, 0xc0645fde, 0xd932eb16, 0x87912990, 0x07590dcd, 0x0b92f20c, 0x745a48de, 0x1e578218)
  const V3 := Vars(0xc5d53d8d, 0xa7a3623f, 0xc2606d6d, 0x9dc68b63, 0xaa47c347, 0x49f5114a, 0xe1257970, 0x8ada8930)
  const V4 := Vars(0x73b33bf5, 0xea992a22, 0xa0060b30, 0x363482c9, 0xba591112, 0x0109ab3a, 0xade79437, 0x6112a3b7)
  const V5 := Vars(0x79ea687a, 0x6dc57a8a, 0x34df1604, 0x41a65cb1, 0x1efbc0a0, 0xf0781bc8, 0xa507a53d, 0x0772a26b)
  const V6 := Vars(0x4172328d, 0xa14c14b0, 0x72ab4b91, 0x26628815, 0xfecf0bc6, 0xd57b94a9, 0xb7755da1, 0xa80f11f0)
  const V7 := Vars(0x38cc9913, 0x3ec45cdb, 0xf5702fdb, 0x101fd28f, 0x54cb266b, 0xe50e1b4f, 0x9f4787c3, 0x529e7d00)
  const V8 := Vars(0x506e3058, 0xd39a2165, 0x04d24d6c, 0xb85e2ce9, 0x5ef50f24, 0xfb121210, 0x948d25b6, 0x961f4894)

  /** A round moves six of the variables on. */
  function Moved(v: Vars, a: Word, e: Word): Vars { Vars(a, v.a, v.b, v.c, e, v.e, v.f, v.g) }

  ghost predicate KRow(t: nat,
                       k: seq<Word>) { |k| == 8 && t + 8 <= 64 == |K| && forall i | 0 <= i < 8 :: K[t + i] == k[i] }

  lemma KRows()
    ensures KRow(0, K0) && KRow(8, K1) && KRow(16, K2) && KRow(24, K3)
    ensures KRow(32, K4) && KRow(40, K5) && KRow(48, K6) && KRow(56, K7)
  {
  }

  lemma OneRound(b: Block, t: nat, v: Vars, next: Vars, k: Word, w: Word)
    requires t < 64 && Rounds(INITIAL, b, t) == v && K[t] == k && W(b, t) == w && Round(v, k, w) == next
    ensures Rounds(INITIAL, b, t + 1) == next
  {
    hide Round, W;
  }

  lemma {:induction false} RunRow(b: Block, t: nat, k: seq<Word>, w: seq<Word>, v: seq<Vars>, n: nat)
    requires KRow(t, k) && RowAt(b, t, w) && |v| == 9 && n <= 8 && Rounds(INITIAL, b, t) == v[0]
    requires forall i | 0 <= i < 8 :: Round(v[i], k[i], w[i]) == v[i + 1]
    ensures Rounds(INITIAL, b, t + n) == v[n]
  {
    hide Round, W, Rounds;
    if n > 0 {
      RunRow(b, t, k, w, v, n - 1);
      OneRound(b, t + n - 1, v[n - 1], v[n], k[n - 1], w[n - 1]);
    }
  }

  lemma Rounds0(b: Block)
    requires Rounds(INITIAL, b, 0) == V0 && RowAt(b, 0, S0)
    ensures Rounds(INITIAL, b, 8) == V1
  {
    hide Rounds, RowAt, W;
    var v1 := Moved(V0, 0x5d6aebcd, 0xfa2a4622);
    var v2 := Moved(v1, 0x5a6ad9ad, 0x78ce7989);
    var v3 := Moved(v2, 0xc8c347a7, 0xf92939eb);
    var v4 := Moved(v3, 0xd550f666, 0x24e00850);
    var v5 := Moved(v4, 0x04409a6a, 0x43ada245);
    var v6 := Moved(v5, 0x2b4209f5, 0x714260ad);
    var v7 := Moved(v6, 0xe5030380, 0x9b27a401);
    var v8 := Moved(v7, 0x85a07b5f, 0x0c657a79);
    assert Round(V0, K0[0], S0[0]) == v1;
    assert Round(v1, K0[1], S0[1]) == v2;
    assert Round(v2, K0[2], S0[2]) == v3;
    assert Round(v3, K0[3], S0[3]) == v4;
    assert Round(v4, K0[4], S0[4]) == v5;
    assert Round(v5, K0[5], S0[5]) == v6;
    assert Round(v6, K0[6], S0[6]) == v7;
    assert Round(v7, K0[7], S0[7]) == v8;
    KRows();
    RunRow(b, 0, K0, S0, [V0, v1, v2, v3, v4, v5, v6, v7, v8], 8);
  }

  lemma Rounds1(b: Block)
    requires Rounds(INITIAL, b, 8) == V1 && RowAt(b, 8, S1)
    ensures Rounds(INITIAL, b, 16) == V2
  {
    hide Rounds, RowAt, W;
    var v1 := Moved(V1, 0x8e04ecb9, 0x32ca2d8c);
    var v2 := Moved(v1, 0x8c87346b, 0x1cc92596);
    var v3 := Moved(v2, 0x4798a3f4, 0x436b23e8);
    var v4 := Moved(v3, 0xf71fc5a9, 0x816fd6e9);
    var v5 := Moved(v4, 0x87912990, 0x1e578218);
    var v6 := Moved(v5, 0xd932eb16, 0x745a48de);
    var v7 := Moved(v6, 0xc0645fde, 0x0b92f20c);
    var v8 := Moved(v7, 0xb0fa238e, 0x07590dcd);
    assert Round(V1, K1[0], S1[0]) == v1;
    assert Round(v1, K1[1], S1[1]) == v2;
    assert Round(v2, K1[2], S1[2]) == v3;
    assert Round(v3, K1[3], S1[3]) == v4;
    assert Round(v4, K1[4], S1[4]) == v5;
    assert Round(v5, K1[5], S1[5]) == v6;
    assert Round(v6, K1[6], S1[6]) == v7;
    assert Round(v7, K1[7], S1[7]) == v8;
    KRows();
    RunRow(b, 8, K1, S1, [V1, v1, v2, v3, v4, v5, v6, v7, v8], 8);
  }

  lemma Rounds2(b: Block)
    requires Rounds(INITIAL, b, 16) == V2 && RowAt(b, 16, S2)
    ensures Rounds(INITIAL, b, 24) == V3
  {
    hide Rounds, RowAt, W;
    var v1 := Moved(V2, 0x21da9a9b, 0x8034229c);
    var v2 := Moved(v1, 0xc2fbd9d1, 0x846ee454);
    var v3 := Moved(v2, 0xfe777bbf, 0xcc899961);
    var v4 := Moved(v3, 0xe1f20c33, 0xb0638179);
    var v5 := Moved(v4, 0x9dc68b63, 0x8ada8930);
    var v6 := Moved(v5, 0xc2606d6d, 0xe1257970);
    var v7 := Moved(v6, 0xa7a3623f, 0x49f5114a);
    var v8 := Moved(v7, 0xc5d53d8d, 0xaa47c347);
    assert Round(V2, K2[0], S2[0]) == v1;
    assert Round(v1, K2[1], S2[1]) == v2;
    assert Round(v2, K2[2], S2[2]) == v3;
    assert Round(v3, K2[3], S2[3]) == v4;
    assert Round(v4, K2[4], S2[4]) == v5;
    assert Round(v5, K2[5], S2[5]) == v6;
    assert Round(v6, K2[6], S2[6]) == v7;
    assert Round(v7, K2[7], S2[7]) == v8;
    KRows();
    RunRow(b, 16, K2, S2, [V2, v1, v2, v3, v4, v5, v6, v7, v8], 8);
  }

  lemma Rounds3(b: Block)
    requires Rounds(INITIAL, b, 24) == V3 && RowAt(b, 24, S3)
    ensures Rounds(INITIAL, b, 32) == V4
  {
    hide Rounds, RowAt, W;
    var v1 := Moved(V3, 0x1c2c2838, 0x2823ef91);
    var v2 := Moved(v1, 0xcde8037d, 0x14383d8e);
    var v3 := Moved(v2, 0xb62ec4bc, 0xc74c6516);
    var v4 := Moved(v3, 0x77d37528, 0xedffbff8);
    var v5 := Moved(v4, 0x363482c9, 0x6112a3b7);
    var v6 := Moved(v5, 0xa0060b30, 0xade79437);
    var v7 := Moved(v6, 0xea992a22, 0x0109ab3a);
    var v8 := Moved(v7, 0x73b33bf5, 0xba591112);
    assert Round(V3, K3[0], S3[0]) == v1;
    assert Round(v1, K3[1], S3[1]) == v2;
    assert Round(v2, K3[2], S3[2]) == v3;
    assert Round(v3, K3[3], S3[3]) == v4;
    assert Round(v4, K3[4], S3[4]) == v5;
    assert Round(v5, K3[5], S3[5]) == v6;
    assert Round(v6, K3[6], S3[6]) == v7;
    assert Round(v7, K3[7], S3[7]) == v8;
    KRows();
    RunRow(b, 24, K3, S3, [V3, v1, v2, v3, v4, v5, v6, v7, v8], 8);
  }

  lemma Rounds4(b: Block)
    requires Rounds(INITIAL, b, 32) == V4 && RowAt(b, 32, S4)
    ensures Rounds(INITIAL, b, 40) == V5
  {
    hide Rounds, RowAt, W;
    var v1 := Moved(V4, 0x98e12507, 0x9cd9f5f6);
    var v2 := Moved(v1, 0xfe604df5, 0x59249dd3);
    var v3 := Moved(v2, 0xa9a7738c, 0x085f3833);
    var v4 := Moved(v3, 0x65a0cfe4, 0xf4b002d6);
    var v5 := Moved(v4, 0x41a65cb1, 0x0772a26b);
    var v6 := Moved(v5, 0x34df1604, 0xa507a53d);
    var v7 := Moved(v6, 0x6dc57a8a, 0xf0781bc8);
    var v8 := Moved(v7, 0x79ea687a, 0x1efbc0a0);
    assert Round(V4, K4[0], S4[0]) == v1;
    assert Round(v1, K4[1], S4[1]) == v2;
    assert Round(v2, K4[2], S4[2]) == v3;
    assert Round(v3, K4[3], S4[3]) == v4;
    assert Round(v4, K4[4], S4[4]) == v5;
    assert Round(v5, K4[5], S4[5]) == v6;
    assert Round(v6, K4[6], S4[6]) == v7;
    assert Round(v7, K4[7], S4[7]) == v8;
    KRows();
    RunRow(b, 32, K4, S4, [V4, v1, v2, v3, v4, v5, v6, v7, v8], 8);
  }

  lemma Rounds5(b: Block)
    requires Rounds(INITIAL, b, 40) == V5 && RowAt(b, 40, S5)
    ensures Rounds(INITIAL, b, 48) == V6
  {
    hide Rounds, RowAt, W;
    var v1 := Moved(V5, 0xd6670766, 0x26352d63);
    var v2 := Moved(v1, 0xdf46652f, 0x838b2711);
    var v3 := Moved(v2, 0x17aa0dfe, 0xdecd4715);
    var v4 := Moved(v3, 0x9d4baf93, 0xfda24c2e);
    var v5 := Moved(v4, 0x26628815, 0xa80f11f0);
    var v6 := Moved(v5, 0x72ab4b91, 0xb7755da1);
    var v7 := Moved(v6, 0xa14c14b0, 0xd57b94a9);
    var v8 := Moved(v7, 0x4172328d, 0xfecf0bc6);
    assert Round(V5, K5[0], S5[0]) == v1;
    assert Round(v1, K5[1], S5[1]) == v2;
    assert Round(v2, K5[2], S5[2]) == v3;
    assert Round(v3, K5[3], S5[3]) == v4;
    assert Round(v4, K5[4], S5[4]) == v5;
    assert Round(v5, K5[5], S5[5]) == v6;
    assert Round(v6, K5[6], S5[6]) == v7;
    assert Round(v7, K5[7], S5[7]) == v8;
    KRows();
    RunRow(b, 40, K5, S5, [V5, v1, v2, v3, v4, v5, v6, v7, v8], 8);
  }

  lemma Rounds6(b: Block)
    requires Rounds(INITIAL, b, 48) == V6 && RowAt(b, 48, S6)
    ensures Rounds(INITIAL, b, 56) == V7
  {
    hide Rounds, RowAt, W;
    var v1 := Moved(V6, 0x05757ceb, 0xbd714038);
    var v2 := Moved(v1, 0xf11bfaa8, 0x6e5c390c);
    var v3 := Moved(v2, 0x7a0508a1, 0x52f1ccf7);
    var v4 := Moved(v3, 0x886e7a22, 0x49231c1e);
    var v5 := Moved(v4, 0x101fd28f, 0x529e7d00);
    var v6 := Moved(v5, 0xf5702fdb, 0x9f4787c3);
    var v7 := Moved(v6, 0x3ec45cdb, 0xe50e1b4f);
    var v8 := Moved(v7, 0x38cc9913, 0x54cb266b);
    assert Round(V6, K6[0], S6[0]) == v1;
    assert Round(v1, K6[1], S6[1]) == v2;
    assert Round(v2, K6[2], S6[2]) == v3;
    assert Round(v3, K6[3], S6[3]) == v4;
    assert Round(v4, K6[4], S6[4]) == v5;
    assert Round(v5, K6[5], S6[5]) == v6;
    assert Round(v6, K6[6], S6[6]) == v7;
    assert Round(v7, K6[7], S6[7]) == v8;
    KRows();
    RunRow(b, 48, K6, S6, [V6, v1, v2, v3, v4, v5, v6, v7, v8], 8);
  }

  lemma Rounds7(b: Block)
    requires Rounds(INITIAL, b, 56) == V7 && RowAt(b, 56, S7)
    ensures Rounds(INITIAL, b, 64) == V8
  {
    hide Rounds, RowAt, W;
    var v1 := Moved(V7, 0xfcd1887b, 0x9b5e906c);
    var v2 := Moved(v1, 0xc062d46f, 0x7e44008e);
    var v3 := Moved(v2, 0xffb70472, 0x6d83bfc6);
    var v4 := Moved(v3, 0xb6ae8fff, 0xb21bad3d);
    var v5 := Moved(v4, 0xb85e2ce9, 0x961f4894);
    var v6 := Moved(v5, 0x04d24d6c, 0x948d25b6);
    var v7 := Moved(v6, 0xd39a2165, 0xfb121210);
    var v8 := Moved(v7, 0x506e3058, 0x5ef50f24);
    assert Round(V7, K7[0], S7[0]) == v1;
    assert Round(v1, K7[1], S7[1]) == v2;
    assert Round(v2, K7[2], S7[2]) == v3;
    assert Round(v3, K7[3], S7[3]) == v4;
    assert Round(v4, K7[4], S7[4]) == v5;
    assert Round(v5, K7[5], S7[5]) == v6;
    assert Round(v6, K7[6], S7[6]) == v7;
    assert Round(v7, K7[7], S7[7]) == v8;
    KRows();
    RunRow(b, 56, K7, S7, [V7, v1, v2, v3, v4, v5, v6, v7, v8], 8);
  }

  /** The digest of "abc" is the published one. */
  lemma AbcDigest()
    ensures Digest(ABC) == [0xba7816bf, 0x8f01cfea, 0x414140de, 0x5dae2223,
                            0xb00361a3, 0x96177a9c, 0xb410ff61, 0xf20015ad]
  {
    hide Round, W, Padded, RowAt;
    AbcPadded();
    var b: Block := Padded(ABC);
    FirstRows(b);
    Row2(b);
    Row3(b);
    Row4(b);
    Row5(b);
    Row6(b);
    Row7(b);
    Rounds0(b);
    Rounds1(b);
    Rounds2(b);
    Rounds3(b);
    Rounds4(b);
    Rounds5(b);
    Rounds6(b);
    Rounds7(b);
    OneBlock(INITIAL, b);
  }

  lemma OneBlock(s: State, b: Block)
    ensures Blocks(s, b) == Compress(s, b)
  {
    assert b[..64] == b && b[64..] == [];
  }

  /** Block after block: hashing two runs of whole blocks is hashing the first, then the second. */
  lemma {:induction false} BlocksInTurn(s: State, m: seq<Byte>, n: seq<Byte>)
    requires |m| % 64 == 0
    ensures Blocks(s, m + n) == Blocks(Blocks(s, m), n)
    decreases |m|
  {
    if m == [] {
      assert m + n == n;
    } else {
      assert (m + n)[..64] == m[..64] && (m + n)[64..] == m[64..] + n;
      BlocksInTurn(Compress(s, m[..64]), m[64..], n);
    }
  }
}
