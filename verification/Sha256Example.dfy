/** The example that comes with FIPS 180-4: the digest of "abc", followed round by round. */
module Fips180Example {
  import opened Bytes
  import opened Fips180
  import Absorbing

  const ABC: seq<bv8> := [0x61, 0x62, 0x63]

  /** The padded message, byte by byte: it is one block. */
  predicate IsPaddedAbc(block: seq<bv8>) {
    && |block| == 64 && block[0] == 0x61 && block[1] == 0x62 && block[2] == 0x63 && block[3] == 0x80
    && (forall i :: 4 <= i < 63 ==> block[i] == 0) && block[63] == 24
  }

  lemma SmallBytes()
    ensures Byte(0) == 0 && Byte(24) == 24
  {
    ByteOfTotal(false, false, false, false, false, false, false, false);
    ByteOfTotal(false, false, false, true, true, false, false, false);
    hide Byte;
  }

  lemma {:induction false} CountOf24(count: nat, k: nat)
    requires count == 24 || count == 0
    ensures Absorbing.CountByte(count, k) == if k == 0 && count == 24 then 24 else 0
    decreases k
  {
    SmallBytes();
    hide Byte;
    if k == 0 {
    } else {
      CountOf24(0, k - 1);
    }
  }

  lemma PaddedAbc(message: seq<bv8>)
    requires message == ABC
    ensures IsPaddedAbc(Padded(message))
  {
    hide BytesOf, Padded;
    forall i | 0 <= i < 8
      ensures BytesOf(24, 8)[i] == if i < 7 then 0 else 24
    {
      Absorbing.CountBytes(24, 8, i);
      CountOf24(24, 7 - i);
    }
    PaddedEnds(message);
  }

  // ----- The schedule -----

  lemma Loaded(b: seq<bv8>, t: nat)
    requires |b| == 64 && t < 16
    ensures W(b, t) == BigEndian(b[4 * t], b[4 * t + 1], b[4 * t + 2], b[4 * t + 3])
  {}

  lemma LoadedWords()
    ensures BigEndian(0x61, 0x62, 0x63, 0x80) == 0x61626380
    ensures BigEndian(0, 0, 0, 0) == 0 && BigEndian(0, 0, 0, 24) == 24
  {}

  lemma LoadedWord(b: seq<bv8>, t: nat)
    requires |b| == 64 && IsPaddedAbc(b) && t < 16
    ensures W(b, t) == if t == 0 then 0x61626380 else if t == 15 then 24 else 0
  {
    hide BigEndian, W;
    LoadedWords();
    Loaded(b, t);
  }

  lemma Words0(b: seq<bv8>)
    requires |b| == 64 && IsPaddedAbc(b)
    ensures W(b, 0) == 0x61626380 && W(b, 1) == 0x00000000 && W(b, 2) == 0x00000000 && W(b, 3) == 0x00000000
    ensures W(b, 4) == 0x00000000 && W(b, 5) == 0x00000000 && W(b, 6) == 0x00000000 && W(b, 7) == 0x00000000
    ensures W(b, 8) == 0x00000000 && W(b, 9) == 0x00000000 && W(b, 10) == 0x00000000 && W(b, 11) == 0x00000000
    ensures W(b, 12) == 0x00000000 && W(b, 13) == 0x00000000 && W(b, 14) == 0x00000000 && W(b, 15) == 0x00000018
  {
    hide W, IsPaddedAbc;
    LoadedWord(b, 0); LoadedWord(b, 1); LoadedWord(b, 2); LoadedWord(b, 3);
    LoadedWord(b, 4); LoadedWord(b, 5); LoadedWord(b, 6); LoadedWord(b, 7);
    LoadedWord(b, 8); LoadedWord(b, 9); LoadedWord(b, 10); LoadedWord(b, 11);
    LoadedWord(b, 12); LoadedWord(b, 13); LoadedWord(b, 14); LoadedWord(b, 15);
  }

  lemma Extended(b: seq<bv8>, t: nat)
    requires |b| == 64 && 16 <= t < 64
    ensures W(b, t) == Extend(W(b, t - 2), W(b, t - 7), W(b, t - 15), W(b, t - 16))
  {}

  lemma Sums1()
    ensures Extend(0x00000000, 0x00000000, 0x00000000, 0x61626380) == 0x61626380
    ensures Extend(0x00000018, 0x00000000, 0x00000000, 0x00000000) == 0x000f0000
    ensures Extend(0x61626380, 0x00000000, 0x00000000, 0x00000000) == 0x7da86405
    ensures Extend(0x000f0000, 0x00000000, 0x00000000, 0x00000000) == 0x600003c6
    ensures Extend(0x7da86405, 0x00000000, 0x00000000, 0x00000000) == 0x3e9d7b78
    ensures Extend(0x600003c6, 0x00000000, 0x00000000, 0x00000000) == 0x0183fc00
    ensures Extend(0x3e9d7b78, 0x00000018, 0x00000000, 0x00000000) == 0x12dcbfdb
    ensures Extend(0x0183fc00, 0x61626380, 0x00000000, 0x00000000) == 0xe2e2c38e
    ensures Extend(0x12dcbfdb, 0x000f0000, 0x00000000, 0x00000000) == 0xc8215c1a
    ensures Extend(0xe2e2c38e, 0x7da86405, 0x00000000, 0x00000000) == 0xb73679a2
    ensures Extend(0xc8215c1a, 0x600003c6, 0x00000000, 0x00000000) == 0xe5bc3909
    ensures Extend(0xb73679a2, 0x3e9d7b78, 0x00000000, 0x00000000) == 0x32663c5b
    ensures Extend(0xe5bc3909, 0x0183fc00, 0x00000000, 0x00000000) == 0x9d209d67
    ensures Extend(0x32663c5b, 0x12dcbfdb, 0x00000000, 0x00000000) == 0xec8726cb
    ensures Extend(0x9d209d67, 0xe2e2c38e, 0x00000018, 0x00000000) == 0x702138a4
    ensures Extend(0xec8726cb, 0xc8215c1a, 0x61626380, 0x00000018) == 0xd3b7973b
  {}

  lemma Words1(b: seq<bv8>)
    requires |b| == 64 && IsPaddedAbc(b)
    ensures W(b, 16) == 0x61626380 && W(b, 17) == 0x000f0000 && W(b, 18) == 0x7da86405 && W(b, 19) == 0x600003c6
    ensures W(b, 20) == 0x3e9d7b78 && W(b, 21) == 0x0183fc00 && W(b, 22) == 0x12dcbfdb && W(b, 23) == 0xe2e2c38e
    ensures W(b, 24) == 0xc8215c1a && W(b, 25) == 0xb73679a2 && W(b, 26) == 0xe5bc3909 && W(b, 27) == 0x32663c5b
    ensures W(b, 28) == 0x9d209d67 && W(b, 29) == 0xec8726cb && W(b, 30) == 0x702138a4 && W(b, 31) == 0xd3b7973b
  {
    hide W, Extend, IsPaddedAbc;
    Words0(b);
    Sums1();
    Extended(b, 16); Extended(b, 17); Extended(b, 18); Extended(b, 19);
    Extended(b, 20); Extended(b, 21); Extended(b, 22); Extended(b, 23);
    Extended(b, 24); Extended(b, 25); Extended(b, 26); Extended(b, 27);
    Extended(b, 28); Extended(b, 29); Extended(b, 30); Extended(b, 31);
  }

  lemma Sums2()
    ensures Extend(0x702138a4, 0xb73679a2, 0x000f0000, 0x61626380) == 0x93f5997f
    ensures Extend(0xd3b7973b, 0xe5bc3909, 0x7da86405, 0x000f0000) == 0x3b68ba73
    ensures Extend(0x93f5997f, 0x32663c5b, 0x600003c6, 0x7da86405) == 0xaff4ffc1
    ensures Extend(0x3b68ba73, 0x9d209d67, 0x3e9d7b78, 0x600003c6) == 0xf10a5c62
    ensures Extend(0xaff4ffc1, 0xec8726cb, 0x0183fc00, 0x3e9d7b78) == 0x0a8b3996
    ensures Extend(0xf10a5c62, 0x702138a4, 0x12dcbfdb, 0x0183fc00) == 0x72af830a
    ensures Extend(0x0a8b3996, 0xd3b7973b, 0xe2e2c38e, 0x12dcbfdb) == 0x9409e33e
    ensures Extend(0x72af830a, 0x93f5997f, 0xc8215c1a, 0xe2e2c38e) == 0x24641522
    ensures Extend(0x9409e33e, 0x3b68ba73, 0xb73679a2, 0xc8215c1a) == 0x9f47bf94
    ensures Extend(0x24641522, 0xaff4ffc1, 0xe5bc3909, 0xb73679a2) == 0xf0a64f5a
    ensures Extend(0x9f47bf94, 0xf10a5c62, 0x32663c5b, 0xe5bc3909) == 0x3e246a79
    ensures Extend(0xf0a64f5a, 0x0a8b3996, 0x9d209d67, 0x32663c5b) == 0x27333ba3
    ensures Extend(0x3e246a79, 0x72af830a, 0xec8726cb, 0x9d209d67) == 0x0c4763f2
    ensures Extend(0x27333ba3, 0x9409e33e, 0x702138a4, 0xec8726cb) == 0x840abf27
    ensures Extend(0x0c4763f2, 0x24641522, 0xd3b7973b, 0x702138a4) == 0x7a290d5d
    ensures Extend(0x840abf27, 0x9f47bf94, 0x93f5997f, 0xd3b7973b) == 0x065c43da
  {}

  lemma Words2(b: seq<bv8>)
    requires |b| == 64 && IsPaddedAbc(b)
    ensures W(b, 32) == 0x93f5997f && W(b, 33) == 0x3b68ba73 && W(b, 34) == 0xaff4ffc1 && W(b, 35) == 0xf10a5c62
    ensures W(b, 36) == 0x0a8b3996 && W(b, 37) == 0x72af830a && W(b, 38) == 0x9409e33e && W(b, 39) == 0x24641522
    ensures W(b, 40) == 0x9f47bf94 && W(b, 41) == 0xf0a64f5a && W(b, 42) == 0x3e246a79 && W(b, 43) == 0x27333ba3
    ensures W(b, 44) == 0x0c4763f2 && W(b, 45) == 0x840abf27 && W(b, 46) == 0x7a290d5d && W(b, 47) == 0x065c43da
  {
    hide W, Extend, IsPaddedAbc;
    Words1(b);
    Sums2();
    Extended(b, 32); Extended(b, 33); Extended(b, 34); Extended(b, 35);
    Extended(b, 36); Extended(b, 37); Extended(b, 38); Extended(b, 39);
    Extended(b, 40); Extended(b, 41); Extended(b, 42); Extended(b, 43);
    Extended(b, 44); Extended(b, 45); Extended(b, 46); Extended(b, 47);
  }

  lemma Sums3()
    ensures Extend(0x7a290d5d, 0xf0a64f5a, 0x3b68ba73, 0x93f5997f) == 0xfb3e89cb
    ensures Extend(0x065c43da, 0x3e246a79, 0xaff4ffc1, 0x3b68ba73) == 0xcc7617db
    ensures Extend(0xfb3e89cb, 0x27333ba3, 0xf10a5c62, 0xaff4ffc1) == 0xb9e66c34
    ensures Extend(0xcc7617db, 0x0c4763f2, 0x0a8b3996, 0xf10a5c62) == 0xa9993667
    ensures Extend(0xb9e66c34, 0x840abf27, 0x72af830a, 0x0a8b3996) == 0x84badedd
    ensures Extend(0xa9993667, 0x7a290d5d, 0x9409e33e, 0x72af830a) == 0xc21462bc
    ensures Extend(0x84badedd, 0x065c43da, 0x24641522, 0x9409e33e) == 0x1487472c
    ensures Extend(0xc21462bc, 0xfb3e89cb, 0x9f47bf94, 0x24641522) == 0xb20f7a99
    ensures Extend(0x1487472c, 0xcc7617db, 0xf0a64f5a, 0x9f47bf94) == 0xef57b9cd
    ensures Extend(0xb20f7a99, 0xb9e66c34, 0x3e246a79, 0xf0a64f5a) == 0xebe6b238
    ensures Extend(0xef57b9cd, 0xa9993667, 0x27333ba3, 0x3e246a79) == 0x9fe3095e
    ensures Extend(0xebe6b238, 0x84badedd, 0x0c4763f2, 0x27333ba3) == 0x78bc8d4b
    ensures Extend(0x9fe3095e, 0xc21462bc, 0x840abf27, 0x0c4763f2) == 0xa43fcf15
    ensures Extend(0x78bc8d4b, 0x1487472c, 0x7a290d5d, 0x840abf27) == 0x668b2ff8
    ensures Extend(0xa43fcf15, 0xb20f7a99, 0x065c43da, 0x7a290d5d) == 0xeeaba2cc
    ensures Extend(0x668b2ff8, 0xef57b9cd, 0xfb3e89cb, 0x065c43da) == 0x12b1edeb
  {}

  lemma Words3(b: seq<bv8>)
    requires |b| == 64 && IsPaddedAbc(b)
    ensures W(b, 48) == 0xfb3e89cb && W(b, 49) == 0xcc7617db && W(b, 50) == 0xb9e66c34 && W(b, 51) == 0xa9993667
    ensures W(b, 52) == 0x84badedd && W(b, 53) == 0xc21462bc && W(b, 54) == 0x1487472c && W(b, 55) == 0xb20f7a99
    ensures W(b, 56) == 0xef57b9cd && W(b, 57) == 0xebe6b238 && W(b, 58) == 0x9fe3095e && W(b, 59) == 0x78bc8d4b
    ensures W(b, 60) == 0xa43fcf15 && W(b, 61) == 0x668b2ff8 && W(b, 62) == 0xeeaba2cc && W(b, 63) == 0x12b1edeb
  {
    hide W, Extend, IsPaddedAbc;
    Words2(b);
    Sums3();
    Extended(b, 48); Extended(b, 49); Extended(b, 50); Extended(b, 51);
    Extended(b, 52); Extended(b, 53); Extended(b, 54); Extended(b, 55);
    Extended(b, 56); Extended(b, 57); Extended(b, 58); Extended(b, 59);
    Extended(b, 60); Extended(b, 61); Extended(b, 62); Extended(b, 63);
  }

  // ----- The rounds -----

  lemma OneRound(b: seq<bv8>, v: Working, t: nat)
    requires |b| == 64 && t < ROUNDS
    ensures Rounds(v, b, t + 1) == Round(Rounds(v, b, t), K(t), W(b, t))
  {
    hide Round, K, W;
  }

  lemma FourRounds(b: seq<bv8>, v: Working, t: nat)
    requires |b| == 64 && t + 4 <= ROUNDS
    ensures Rounds(v, b, t + 4) ==
            Round(Round(Round(Round(Rounds(v, b, t), K(t), W(b, t)), K(t + 1), W(b, t + 1)),
                        K(t + 2), W(b, t + 2)), K(t + 3), W(b, t + 3))
  {
    hide Round, Rounds, K, W;
    OneRound(b, v, t);
    OneRound(b, v, t + 1);
    OneRound(b, v, t + 2);
    OneRound(b, v, t + 3);
  }

  function Start(): Working { InState(H0) }

  lemma Rounds0(b: seq<bv8>)
    requires |b| == 64 && IsPaddedAbc(b)
    ensures Rounds(Start(), b, 0) ==
            Working(0x6a09e667, 0xbb67ae85, 0x3c6ef372, 0xa54ff53a, 0x510e527f, 0x9b05688c, 0x1f83d9ab, 0x5be0cd19)
  {
    assert H0[0] == 0x6a09e667 && H0[1] == 0xbb67ae85 && H0[2] == 0x3c6ef372 && H0[3] == 0xa54ff53a;
    assert H0[4] == 0x510e527f && H0[5] == 0x9b05688c && H0[6] == 0x1f83d9ab && H0[7] == 0x5be0cd19;
  }

  lemma Sums0To4()
    ensures Temp1(0x510e527f, 0x9b05688c, 0x1f83d9ab, 0x5be0cd19, 0x428a2f98, 0x61626380) == 0x54da50e8
    ensures Temp2(0x6a09e667, 0xbb67ae85, 0x3c6ef372) == 0x08909ae5
    ensures Add(0x54da50e8, 0x08909ae5) == 0x5d6aebcd && Add(0xa54ff53a, 0x54da50e8) == 0xfa2a4622
    ensures Temp1(0xfa2a4622, 0x510e527f, 0x9b05688c, 0x1f83d9ab, 0x71374491, 0x00000000) == 0x3c5f8617
    ensures Temp2(0x5d6aebcd, 0x6a09e667, 0xbb67ae85) == 0x1e0b5396
    ensures Add(0x3c5f8617, 0x1e0b5396) == 0x5a6ad9ad && Add(0x3c6ef372, 0x3c5f8617) == 0x78ce7989
    ensures Temp1(0x78ce7989, 0xfa2a4622, 0x510e527f, 0x9b05688c, 0xb5c0fbcf, 0x00000000) == 0x3dc18b66
    ensures Temp2(0x5a6ad9ad, 0x5d6aebcd, 0x6a09e667) == 0x8b01bc41
    ensures Add(0x3dc18b66, 0x8b01bc41) == 0xc8c347a7 && Add(0xbb67ae85, 0x3dc18b66) == 0xf92939eb
    ensures Temp1(0xf92939eb, 0x78ce7989, 0xfa2a4622, 0x510e527f, 0xe9b5dba5, 0x00000000) == 0xbad621e9
    ensures Temp2(0xc8c347a7, 0x5a6ad9ad, 0x5d6aebcd) == 0x1a7ad47d
    ensures Add(0xbad621e9, 0x1a7ad47d) == 0xd550f666 && Add(0x6a09e667, 0xbad621e9) == 0x24e00850
  {}

  lemma Rounds4(b: seq<bv8>)
    requires |b| == 64 && IsPaddedAbc(b)
    ensures Rounds(Start(), b, 4) ==
            Working(0xd550f666, 0xc8c347a7, 0x5a6ad9ad, 0x5d6aebcd, 0x24e00850, 0xf92939eb, 0x78ce7989, 0xfa2a4622)
  {
    hide Start, Rounds, Temp1, Temp2, Add, K, W, IsPaddedAbc;
    Rounds0(b);
    FourRounds(b, Start(), 0);
    Words0(b);
    Constants0();
    Sums0To4();
  }

  lemma Sums4To8()
    ensures Temp1(0x24e00850, 0xf92939eb, 0x78ce7989, 0xfa2a4622, 0x3956c25b, 0x00000000) == 0xe642b678
    ensures Temp2(0xd550f666, 0xc8c347a7, 0x5a6ad9ad) == 0x1dfde3f2
    ensures Add(0xe642b678, 0x1dfde3f2) == 0x04409a6a && Add(0x5d6aebcd, 0xe642b678) == 0x43ada245
    ensures Temp1(0x43ada245, 0x24e00850, 0xf92939eb, 0x78ce7989, 0x59f111f1, 0x00000000) == 0x16d78700
    ensures Temp2(0x04409a6a, 0xd550f666, 0xc8c347a7) == 0x146a82f5
    ensures Add(0x16d78700, 0x146a82f5) == 0x2b4209f5 && Add(0x5a6ad9ad, 0x16d78700) == 0x714260ad
    ensures Temp1(0x714260ad, 0x43ada245, 0x24e00850, 0xf92939eb, 0x923f82a4, 0x00000000) == 0xd2645c5a
    ensures Temp2(0x2b4209f5, 0x04409a6a, 0xd550f666) == 0x129ea726
    ensures Add(0xd2645c5a, 0x129ea726) == 0xe5030380 && Add(0xc8c347a7, 0xd2645c5a) == 0x9b27a401
    ensures Temp1(0x9b27a401, 0x714260ad, 0x43ada245, 0x24e00850, 0xab1c5ed5, 0x00000000) == 0x37148413
    ensures Temp2(0xe5030380, 0x2b4209f5, 0x04409a6a) == 0x4e8bf74c
    ensures Add(0x37148413, 0x4e8bf74c) == 0x85a07b5f && Add(0xd550f666, 0x37148413) == 0x0c657a79
  {}

  lemma Rounds8(b: seq<bv8>)
    requires |b| == 64 && IsPaddedAbc(b)
    ensures Rounds(Start(), b, 8) ==
            Working(0x85a07b5f, 0xe5030380, 0x2b4209f5, 0x04409a6a, 0x0c657a79, 0x9b27a401, 0x714260ad, 0x43ada245)
  {
    hide Start, Rounds, Temp1, Temp2, Add, K, W, IsPaddedAbc;
    Rounds4(b);
    FourRounds(b, Start(), 4);
    Words0(b);
    Constants0();
    Sums4To8();
  }

  lemma Sums8To12()
    ensures Temp1(0x0c657a79, 0x9b27a401, 0x714260ad, 0x43ada245, 0xd807aa98, 0x00000000) == 0x2e899322
    ensures Temp2(0x85a07b5f, 0xe5030380, 0x2b4209f5) == 0x5f7b5997
    ensures Add(0x2e899322, 0x5f7b5997) == 0x8e04ecb9 && Add(0x04409a6a, 0x2e899322) == 0x32ca2d8c
    ensures Temp1(0x32ca2d8c, 0x0c657a79, 0x9b27a401, 0x714260ad, 0x12835b01, 0x00000000) == 0xf1871ba1
    ensures Temp2(0x8e04ecb9, 0x85a07b5f, 0xe5030380) == 0x9b0018ca
    ensures Add(0xf1871ba1, 0x9b0018ca) == 0x8c87346b && Add(0x2b4209f5, 0xf1871ba1) == 0x1cc92596
    ensures Temp1(0x1cc92596, 0x32ca2d8c, 0x0c657a79, 0x9b27a401, 0x243185be, 0x00000000) == 0x5e682068
    ensures Temp2(0x8c87346b, 0x8e04ecb9, 0x85a07b5f) == 0xe930838c
    ensures Add(0x5e682068, 0xe930838c) == 0x4798a3f4 && Add(0xe5030380, 0x5e682068) == 0x436b23e8
    ensures Temp1(0x436b23e8, 0x1cc92596, 0x32ca2d8c, 0x0c657a79, 0x550c7dc3, 0x00000000) == 0xfbcf5b8a
    ensures Temp2(0x4798a3f4, 0x8c87346b, 0x8e04ecb9) == 0xfb506a1f
    ensures Add(0xfbcf5b8a, 0xfb506a1f) == 0xf71fc5a9 && Add(0x85a07b5f, 0xfbcf5b8a) == 0x816fd6e9
  {}

  lemma Rounds12(b: seq<bv8>)
    requires |b| == 64 && IsPaddedAbc(b)
    ensures Rounds(Start(), b, 12) ==
            Working(0xf71fc5a9, 0x4798a3f4, 0x8c87346b, 0x8e04ecb9, 0x816fd6e9, 0x436b23e8, 0x1cc92596, 0x32ca2d8c)
  {
    hide Start, Rounds, Temp1, Temp2, Add, K, W, IsPaddedAbc;
    Rounds8(b);
    FourRounds(b, Start(), 8);
    Words0(b);
    Constants1();
    Sums8To12();
  }

  lemma Sums12To16()
    ensures Temp1(0x816fd6e9, 0x436b23e8, 0x1cc92596, 0x32ca2d8c, 0x72be5d74, 0x00000000) == 0x9052955f
    ensures Temp2(0xf71fc5a9, 0x4798a3f4, 0x8c87346b) == 0xf73e9431
    ensures Add(0x9052955f, 0xf73e9431) == 0x87912990 && Add(0x8e04ecb9, 0x9052955f) == 0x1e578218
    ensures Temp1(0x1e578218, 0x816fd6e9, 0x436b23e8, 0x1cc92596, 0x80deb1fe, 0x00000000) == 0xe7d31473
    ensures Temp2(0x87912990, 0xf71fc5a9, 0x4798a3f4) == 0xf15fd6a3
    ensures Add(0xe7d31473, 0xf15fd6a3) == 0xd932eb16 && Add(0x8c87346b, 0xe7d31473) == 0x745a48de
    ensures Temp1(0x745a48de, 0x1e578218, 0x816fd6e9, 0x436b23e8, 0x9bdc06a7, 0x00000000) == 0xc3fa4e18
    ensures Temp2(0xd932eb16, 0x87912990, 0xf71fc5a9) == 0xfc6a11c6
    ensures Add(0xc3fa4e18, 0xfc6a11c6) == 0xc0645fde && Add(0x4798a3f4, 0xc3fa4e18) == 0x0b92f20c
    ensures Temp1(0x0b92f20c, 0x745a48de, 0x1e578218, 0x816fd6e9, 0xc19bf174, 0x00000018) == 0x10394824
    ensures Temp2(0xc0645fde, 0xd932eb16, 0x87912990) == 0xa0c0db6a
    ensures Add(0x10394824, 0xa0c0db6a) == 0xb0fa238e && Add(0xf71fc5a9, 0x10394824) == 0x07590dcd
  {}

  lemma Rounds16(b: seq<bv8>)
    requires |b| == 64 && IsPaddedAbc(b)
    ensures Rounds(Start(), b, 16) ==
            Working(0xb0fa238e, 0xc0645fde, 0xd932eb16, 0x87912990, 0x07590dcd, 0x0b92f20c, 0x745a48de, 0x1e578218)
  {
    hide Start, Rounds, Temp1, Temp2, Add, K, W, IsPaddedAbc;
    Rounds12(b);
    FourRounds(b, Start(), 12);
    Words0(b);
    Constants1();
    Sums12To16();
  }

  lemma Sums16To20()
    ensures Temp1(0x07590dcd, 0x0b92f20c, 0x745a48de, 0x1e578218, 0xe49b69c1, 0x61626380) == 0xf8a2f90c
    ensures Temp2(0xb0fa238e, 0xc0645fde, 0xd932eb16) == 0x2937a18f
    ensures Add(0xf8a2f90c, 0x2937a18f) == 0x21da9a9b && Add(0x87912990, 0xf8a2f90c) == 0x8034229c
    ensures Temp1(0x8034229c, 0x07590dcd, 0x0b92f20c, 0x745a48de, 0xefbe4786, 0x000f0000) == 0xab3bf93e
    ensures Temp2(0x21da9a9b, 0xb0fa238e, 0xc0645fde) == 0x17bfe093
    ensures Add(0xab3bf93e, 0x17bfe093) == 0xc2fbd9d1 && Add(0xd932eb16, 0xab3bf93e) == 0x846ee454
    ensures Temp1(0x846ee454, 0x8034229c, 0x07590dcd, 0x0b92f20c, 0x0fc19dc6, 0x7da86405) == 0x0c253983
    ensures Temp2(0xc2fbd9d1, 0x21da9a9b, 0xb0fa238e) == 0xf252423c
    ensures Add(0x0c253983, 0xf252423c) == 0xfe777bbf && Add(0xc0645fde, 0x0c253983) == 0xcc899961
    ensures Temp1(0xcc899961, 0x846ee454, 0x8034229c, 0x07590dcd, 0x240ca1cc, 0x600003c6) == 0xff695deb
    ensures Temp2(0xfe777bbf, 0xc2fbd9d1, 0x21da9a9b) == 0xe288ae48
    ensures Add(0xff695deb, 0xe288ae48) == 0xe1f20c33 && Add(0xb0fa238e, 0xff695deb) == 0xb0638179
  {}

  lemma Rounds20(b: seq<bv8>)
    requires |b| == 64 && IsPaddedAbc(b)
    ensures Rounds(Start(), b, 20) ==
            Working(0xe1f20c33, 0xfe777bbf, 0xc2fbd9d1, 0x21da9a9b, 0xb0638179, 0xcc899961, 0x846ee454, 0x8034229c)
  {
    hide Start, Rounds, Temp1, Temp2, Add, K, W, IsPaddedAbc;
    Rounds16(b);
    FourRounds(b, Start(), 16);
    Words1(b);
    Constants2();
    Sums16To20();
  }

  lemma Sums20To24()
    ensures Temp1(0xb0638179, 0xcc899961, 0x846ee454, 0x8034229c, 0x2de92c6f, 0x3e9d7b78) == 0x68ffee95
    ensures Temp2(0xe1f20c33, 0xfe777bbf, 0xc2fbd9d1) == 0x34c69cce
    ensures Add(0x68ffee95, 0x34c69cce) == 0x9dc68b63 && Add(0x21da9a9b, 0x68ffee95) == 0x8ada8930
    ensures Temp1(0x8ada8930, 0xb0638179, 0xcc899961, 0x846ee454, 0x4a7484aa, 0x0183fc00) == 0x1e299f9f
    ensures Temp2(0x9dc68b63, 0xe1f20c33, 0xfe777bbf) == 0xa436cdce
    ensures Add(0x1e299f9f, 0xa436cdce) == 0xc2606d6d && Add(0xc2fbd9d1, 0x1e299f9f) == 0xe1257970
    ensures Temp1(0xe1257970, 0x8ada8930, 0xb0638179, 0xcc899961, 0x5cb0a9dc, 0x12dcbfdb) == 0x4b7d958b
    ensures Temp2(0xc2606d6d, 0x9dc68b63, 0xe1f20c33) == 0x5c25ccb4
    ensures Add(0x4b7d958b, 0x5c25ccb4) == 0xa7a3623f && Add(0xfe777bbf, 0x4b7d958b) == 0x49f5114a
    ensures Temp1(0x49f5114a, 0xe1257970, 0x8ada8930, 0xb0638179, 0x76f988da, 0xe2e2c38e) == 0xc855b714
    ensures Temp2(0xa7a3623f, 0xc2606d6d, 0x9dc68b63) == 0xfd7f8679
    ensures Add(0xc855b714, 0xfd7f8679) == 0xc5d53d8d && Add(0xe1f20c33, 0xc855b714) == 0xaa47c347
  {}

  lemma Rounds24(b: seq<bv8>)
    requires |b| == 64 && IsPaddedAbc(b)
    ensures Rounds(Start(), b, 24) ==
            Working(0xc5d53d8d, 0xa7a3623f, 0xc2606d6d, 0x9dc68b63, 0xaa47c347, 0x49f5114a, 0xe1257970, 0x8ada8930)
  {
    hide Start, Rounds, Temp1, Temp2, Add, K, W, IsPaddedAbc;
    Rounds20(b);
    FourRounds(b, Start(), 20);
    Words1(b);
    Constants2();
    Sums20To24();
  }

  lemma Sums24To28()
    ensures Temp1(0xaa47c347, 0x49f5114a, 0xe1257970, 0x8ada8930, 0x983e5152, 0xc8215c1a) == 0x8a5d642e
    ensures Temp2(0xc5d53d8d, 0xa7a3623f, 0xc2606d6d) == 0x91cec40a
    ensures Add(0x8a5d642e, 0x91cec40a) == 0x1c2c2838 && Add(0x9dc68b63, 0x8a5d642e) == 0x2823ef91
    ensures Temp1(0x2823ef91, 0xaa47c347, 0x49f5114a, 0xe1257970, 0xa831c66d, 0xb73679a2) == 0x51d7d021
    ensures Temp2(0x1c2c2838, 0xc5d53d8d, 0xa7a3623f) == 0x7c10335c
    ensures Add(0x51d7d021, 0x7c10335c) == 0xcde8037d && Add(0xc2606d6d, 0x51d7d021) == 0x14383d8e
    ensures Temp1(0x14383d8e, 0x2823ef91, 0xaa47c347, 0x49f5114a, 0xb00327c8, 0xe5bc3909) == 0x1fa902d7
    ensures Temp2(0xcde8037d, 0x1c2c2838, 0xc5d53d8d) == 0x9685c1e5
    ensures Add(0x1fa902d7, 0x9685c1e5) == 0xb62ec4bc && Add(0xa7a3623f, 0x1fa902d7) == 0xc74c6516
    ensures Temp1(0xc74c6516, 0x14383d8e, 0x2823ef91, 0xaa47c347, 0xbf597fc7, 0x32663c5b) == 0x282a826b
    ensures Temp2(0xb62ec4bc, 0xcde8037d, 0x1c2c2838) == 0x4fa8f2bd
    ensures Add(0x282a826b, 0x4fa8f2bd) == 0x77d37528 && Add(0xc5d53d8d, 0x282a826b) == 0xedffbff8
  {}

  lemma Rounds28(b: seq<bv8>)
    requires |b| == 64 && IsPaddedAbc(b)
    ensures Rounds(Start(), b, 28) ==
            Working(0x77d37528, 0xb62ec4bc, 0xcde8037d, 0x1c2c2838, 0xedffbff8, 0xc74c6516, 0x14383d8e, 0x2823ef91)
  {
    hide Start, Rounds, Temp1, Temp2, Add, K, W, IsPaddedAbc;
    Rounds24(b);
    FourRounds(b, Start(), 24);
    Words1(b);
    Constants3();
    Sums24To28();
  }

  lemma Sums28To32()
    ensures Temp1(0xedffbff8, 0xc74c6516, 0x14383d8e, 0x2823ef91, 0xc6e00bf3, 0x9d209d67) == 0x44e67b7f
    ensures Temp2(0x77d37528, 0xb62ec4bc, 0xcde8037d) == 0xf14e074a
    ensures Add(0x44e67b7f, 0xf14e074a) == 0x363482c9 && Add(0x1c2c2838, 0x44e67b7f) == 0x6112a3b7
    ensures Temp1(0x6112a3b7, 0xedffbff8, 0xc74c6516, 0x14383d8e, 0xd5a79147, 0xec8726cb) == 0xdfff90ba
    ensures Temp2(0x363482c9, 0x77d37528, 0xb62ec4bc) == 0xc0067a76
    ensures Add(0xdfff90ba, 0xc0067a76) == 0xa0060b30 && Add(0xcde8037d, 0xdfff90ba) == 0xade79437
    ensures Temp1(0xade79437, 0x6112a3b7, 0xedffbff8, 0xc74c6516, 0x06ca6351, 0x702138a4) == 0x4adae67e
    ensures Temp2(0xa0060b30, 0x363482c9, 0x77d37528) == 0x9fbe43a4
    ensures Add(0x4adae67e, 0x9fbe43a4) == 0xea992a22 && Add(0xb62ec4bc, 0x4adae67e) == 0x0109ab3a
    ensures Temp1(0x0109ab3a, 0xade79437, 0x6112a3b7, 0xedffbff8, 0x14292967, 0xd3b7973b) == 0x42859bea
    ensures Temp2(0xea992a22, 0xa0060b30, 0x363482c9) == 0x312da00b
    ensures Add(0x42859bea, 0x312da00b) == 0x73b33bf5 && Add(0x77d37528, 0x42859bea) == 0xba591112
  {}

  lemma Rounds32(b: seq<bv8>)
    requires |b| == 64 && IsPaddedAbc(b)
    ensures Rounds(Start(), b, 32) ==
            Working(0x73b33bf5, 0xea992a22, 0xa0060b30, 0x363482c9, 0xba591112, 0x0109ab3a, 0xade79437, 0x6112a3b7)
  {
    hide Start, Rounds, Temp1, Temp2, Add, K, W, IsPaddedAbc;
    Rounds28(b);
    FourRounds(b, Start(), 28);
    Words1(b);
    Constants3();
    Sums28To32();
  }

  lemma Sums32To36()
    ensures Temp1(0xba591112, 0x0109ab3a, 0xade79437, 0x6112a3b7, 0x27b70a85, 0x93f5997f) == 0x66a5732d
    ensures Temp2(0x73b33bf5, 0xea992a22, 0xa0060b30) == 0x323bb1da
    ensures Add(0x66a5732d, 0x323bb1da) == 0x98e12507 && Add(0x363482c9, 0x66a5732d) == 0x9cd9f5f6
    ensures Temp1(0x9cd9f5f6, 0xba591112, 0x0109ab3a, 0xade79437, 0x2e1b2138, 0x3b68ba73) == 0xb91e92a3
    ensures Temp2(0x98e12507, 0x73b33bf5, 0xea992a22) == 0x4541bb52
    ensures Add(0xb91e92a3, 0x4541bb52) == 0xfe604df5 && Add(0xa0060b30, 0xb91e92a3) == 0x59249dd3
    ensures Temp1(0x59249dd3, 0x9cd9f5f6, 0xba591112, 0x0109ab3a, 0x4d2c6dfc, 0xaff4ffc1) == 0x1dc60e11
    ensures Temp2(0xfe604df5, 0x98e12507, 0x73b33bf5) == 0x8be1657b
    ensures Add(0x1dc60e11, 0x8be1657b) == 0xa9a7738c && Add(0xea992a22, 0x1dc60e11) == 0x085f3833
    ensures Temp1(0x085f3833, 0x59249dd3, 0x9cd9f5f6, 0xba591112, 0x53380d13, 0xf10a5c62) == 0x80fcc6e1
    ensures Temp2(0xa9a7738c, 0xfe604df5, 0x98e12507) == 0xe4a40903
    ensures Add(0x80fcc6e1, 0xe4a40903) == 0x65a0cfe4 && Add(0x73b33bf5, 0x80fcc6e1) == 0xf4b002d6
  {}

  lemma Rounds36(b: seq<bv8>)
    requires |b| == 64 && IsPaddedAbc(b)
    ensures Rounds(Start(), b, 36) ==
            Working(0x65a0cfe4, 0xa9a7738c, 0xfe604df5, 0x98e12507, 0xf4b002d6, 0x085f3833, 0x59249dd3, 0x9cd9f5f6)
  {
    hide Start, Rounds, Temp1, Temp2, Add, K, W, IsPaddedAbc;
    Rounds32(b);
    FourRounds(b, Start(), 32);
    Words2(b);
    Constants4();
    Sums32To36();
  }

  lemma Sums36To40()
    ensures Temp1(0xf4b002d6, 0x085f3833, 0x59249dd3, 0x9cd9f5f6, 0x650a7354, 0x0a8b3996) == 0x6e917d64
    ensures Temp2(0x65a0cfe4, 0xa9a7738c, 0xfe604df5) == 0xd314df4d
    ensures Add(0x6e917d64, 0xd314df4d) == 0x41a65cb1 && Add(0x98e12507, 0x6e917d64) == 0x0772a26b
    ensures Temp1(0x0772a26b, 0xf4b002d6, 0x085f3833, 0x59249dd3, 0x766a0abb, 0x72af830a) == 0xa6a75748
    ensures Temp2(0x41a65cb1, 0x65a0cfe4, 0xa9a7738c) == 0x8e37bebc
    ensures Add(0xa6a75748, 0x8e37bebc) == 0x34df1604 && Add(0xfe604df5, 0xa6a75748) == 0xa507a53d
    ensures Temp1(0xa507a53d, 0x0772a26b, 0xf4b002d6, 0x085f3833, 0x81c2c92e, 0x9409e33e) == 0x46d0a83c
    ensures Temp2(0x34df1604, 0x41a65cb1, 0x65a0cfe4) == 0x26f4d24e
    ensures Add(0x46d0a83c, 0x26f4d24e) == 0x6dc57a8a && Add(0xa9a7738c, 0x46d0a83c) == 0xf0781bc8
    ensures Temp1(0xf0781bc8, 0xa507a53d, 0x0772a26b, 0xf4b002d6, 0x92722c85, 0x24641522) == 0xb95af0bc
    ensures Temp2(0x6dc57a8a, 0x34df1604, 0x41a65cb1) == 0xc08f77be
    ensures Add(0xb95af0bc, 0xc08f77be) == 0x79ea687a && Add(0x65a0cfe4, 0xb95af0bc) == 0x1efbc0a0
  {}

  lemma Rounds40(b: seq<bv8>)
    requires |b| == 64 && IsPaddedAbc(b)
    ensures Rounds(Start(), b, 40) ==
            Working(0x79ea687a, 0x6dc57a8a, 0x34df1604, 0x41a65cb1, 0x1efbc0a0, 0xf0781bc8, 0xa507a53d, 0x0772a26b)
  {
    hide Start, Rounds, Temp1, Temp2, Add, K, W, IsPaddedAbc;
    Rounds36(b);
    FourRounds(b, Start(), 36);
    Words2(b);
    Constants4();
    Sums36To40();
  }

  lemma Sums40To44()
    ensures Temp1(0x1efbc0a0, 0xf0781bc8, 0xa507a53d, 0x0772a26b, 0xa2bfe8a1, 0x9f47bf94) == 0xe48ed0b2
    ensures Temp2(0x79ea687a, 0x6dc57a8a, 0x34df1604) == 0xf1d836b4
    ensures Add(0xe48ed0b2, 0xf1d836b4) == 0xd6670766 && Add(0x41a65cb1, 0xe48ed0b2) == 0x26352d63
    ensures Temp1(0x26352d63, 0x1efbc0a0, 0xf0781bc8, 0xa507a53d, 0xa81a664b, 0xf0a64f5a) == 0x4eac110d
    ensures Temp2(0xd6670766, 0x79ea687a, 0x6dc57a8a) == 0x909a5422
    ensures Add(0x4eac110d, 0x909a5422) == 0xdf46652f && Add(0x34df1604, 0x4eac110d) == 0x838b2711
    ensures Temp1(0x838b2711, 0x26352d63, 0x1efbc0a0, 0xf0781bc8, 0xc24b8b70, 0x3e246a79) == 0x7107cc8b
    ensures Temp2(0xdf46652f, 0xd6670766, 0x79ea687a) == 0xa6a24173
    ensures Add(0x7107cc8b, 0xa6a24173) == 0x17aa0dfe && Add(0x6dc57a8a, 0x7107cc8b) == 0xdecd4715
    ensures Temp1(0xdecd4715, 0x838b2711, 0x26352d63, 0x1efbc0a0, 0xc76c51a3, 0x27333ba3) == 0x83b7e3b4
    ensures Temp2(0x17aa0dfe, 0xdf46652f, 0xd6670766) == 0x1993cbdf
    ensures Add(0x83b7e3b4, 0x1993cbdf) == 0x9d4baf93 && Add(0x79ea687a, 0x83b7e3b4) == 0xfda24c2e
  {}

  lemma Rounds44(b: seq<bv8>)
    requires |b| == 64 && IsPaddedAbc(b)
    ensures Rounds(Start(), b, 44) ==
            Working(0x9d4baf93, 0x17aa0dfe, 0xdf46652f, 0xd6670766, 0xfda24c2e, 0xdecd4715, 0x838b2711, 0x26352d63)
  {
    hide Start, Rounds, Temp1, Temp2, Add, K, W, IsPaddedAbc;
    Rounds40(b);
    FourRounds(b, Start(), 40);
    Words2(b);
    Constants5();
    Sums40To44();
  }

  lemma Sums44To48()
    ensures Temp1(0xfda24c2e, 0xdecd4715, 0x838b2711, 0x26352d63, 0xd192e819, 0x0c4763f2) == 0xd1a80a8a
    ensures Temp2(0x9d4baf93, 0x17aa0dfe, 0xdf46652f) == 0x54ba7d8b
    ensures Add(0xd1a80a8a, 0x54ba7d8b) == 0x26628815 && Add(0xd6670766, 0xd1a80a8a) == 0xa80f11f0
    ensures Temp1(0xa80f11f0, 0xfda24c2e, 0xdecd4715, 0x838b2711, 0xd6990624, 0x840abf27) == 0xd82ef872
    ensures Temp2(0x26628815, 0x9d4baf93, 0x17aa0dfe) == 0x9a7c531f
    ensures Add(0xd82ef872, 0x9a7c531f) == 0x72ab4b91 && Add(0xdf46652f, 0xd82ef872) == 0xb7755da1
    ensures Temp1(0xb7755da1, 0xa80f11f0, 0xfda24c2e, 0xdecd4715, 0xf40e3585, 0x7a290d5d) == 0xbdd186ab
    ensures Temp2(0x72ab4b91, 0x26628815, 0x9d4baf93) == 0xe37a8e05
    ensures Add(0xbdd186ab, 0xe37a8e05) == 0xa14c14b0 && Add(0x17aa0dfe, 0xbdd186ab) == 0xd57b94a9
    ensures Temp1(0xd57b94a9, 0xb7755da1, 0xa80f11f0, 0xfda24c2e, 0x106aa070, 0x065c43da) == 0x61835c33
    ensures Temp2(0xa14c14b0, 0x72ab4b91, 0x26628815) == 0xdfeed65a
    ensures Add(0x61835c33, 0xdfeed65a) == 0x4172328d && Add(0x9d4baf93, 0x61835c33) == 0xfecf0bc6
  {}

  lemma Rounds48(b: seq<bv8>)
    requires |b| == 64 && IsPaddedAbc(b)
    ensures Rounds(Start(), b, 48) ==
            Working(0x4172328d, 0xa14c14b0, 0x72ab4b91, 0x26628815, 0xfecf0bc6, 0xd57b94a9, 0xb7755da1, 0xa80f11f0)
  {
    hide Start, Rounds, Temp1, Temp2, Add, K, W, IsPaddedAbc;
    Rounds44(b);
    FourRounds(b, Start(), 44);
    Words2(b);
    Constants5();
    Sums44To48();
  }

  lemma Sums48To52()
    ensures Temp1(0xfecf0bc6, 0xd57b94a9, 0xb7755da1, 0xa80f11f0, 0x19a4c116, 0xfb3e89cb) == 0x970eb823
    ensures Temp2(0x4172328d, 0xa14c14b0, 0x72ab4b91) == 0x6e66c4c8
    ensures Add(0x970eb823, 0x6e66c4c8) == 0x05757ceb && Add(0x26628815, 0x970eb823) == 0xbd714038
    ensures Temp1(0xbd714038, 0xfecf0bc6, 0xd57b94a9, 0xb7755da1, 0x1e376c08, 0xcc7617db) == 0xfbb0ed7b
    ensures Temp2(0x05757ceb, 0x4172328d, 0xa14c14b0) == 0xf56b0d2d
    ensures Add(0xfbb0ed7b, 0xf56b0d2d) == 0xf11bfaa8 && Add(0x72ab4b91, 0xfbb0ed7b) == 0x6e5c390c
    ensures Temp1(0x6e5c390c, 0xbd714038, 0xfecf0bc6, 0xd57b94a9, 0x2748774c, 0xb9e66c34) == 0xb1a5b847
    ensures Temp2(0xf11bfaa8, 0x05757ceb, 0x4172328d) == 0xc85f505a
    ensures Add(0xb1a5b847, 0xc85f505a) == 0x7a0508a1 && Add(0xa14c14b0, 0xb1a5b847) == 0x52f1ccf7
    ensures Temp1(0x52f1ccf7, 0x6e5c390c, 0xbd714038, 0xfecf0bc6, 0x34b0bcb5, 0xa9993667) == 0x07b0e991
    ensures Temp2(0x7a0508a1, 0xf11bfaa8, 0x05757ceb) == 0x80bd9091
    ensures Add(0x07b0e991, 0x80bd9091) == 0x886e7a22 && Add(0x4172328d, 0x07b0e991) == 0x49231c1e
  {}

  lemma Rounds52(b: seq<bv8>)
    requires |b| == 64 && IsPaddedAbc(b)
    ensures Rounds(Start(), b, 52) ==
            Working(0x886e7a22, 0x7a0508a1, 0xf11bfaa8, 0x05757ceb, 0x49231c1e, 0x52f1ccf7, 0x6e5c390c, 0xbd714038)
  {
    hide Start, Rounds, Temp1, Temp2, Add, K, W, IsPaddedAbc;
    Rounds48(b);
    FourRounds(b, Start(), 48);
    Words3(b);
    Constants6();
    Sums48To52();
  }

  lemma Sums52To56()
    ensures Temp1(0x49231c1e, 0x52f1ccf7, 0x6e5c390c, 0xbd714038, 0x391c0cb3, 0x84badedd) == 0x4d290015
    ensures Temp2(0x886e7a22, 0x7a0508a1, 0xf11bfaa8) == 0xc2f6d27a
    ensures Add(0x4d290015, 0xc2f6d27a) == 0x101fd28f && Add(0x05757ceb, 0x4d290015) == 0x529e7d00
    ensures Temp1(0x529e7d00, 0x49231c1e, 0x52f1ccf7, 0x6e5c390c, 0x4ed8aa4a, 0xc21462bc) == 0xae2b8d1b
    ensures Temp2(0x101fd28f, 0x886e7a22, 0x7a0508a1) == 0x4744a2c0
    ensures Add(0xae2b8d1b, 0x4744a2c0) == 0xf5702fdb && Add(0xf11bfaa8, 0xae2b8d1b) == 0x9f4787c3
    ensures Temp1(0x9f4787c3, 0x529e7d00, 0x49231c1e, 0x52f1ccf7, 0x5b9cca4f, 0x1487472c) == 0x6b0912ae
    ensures Temp2(0xf5702fdb, 0x101fd28f, 0x886e7a22) == 0xd3bb4a2d
    ensures Add(0x6b0912ae, 0xd3bb4a2d) == 0x3ec45cdb && Add(0x7a0508a1, 0x6b0912ae) == 0xe50e1b4f
    ensures Temp1(0xe50e1b4f, 0x9f4787c3, 0x529e7d00, 0x49231c1e, 0x682e6ff3, 0xb20f7a99) == 0xcc5cac49
    ensures Temp2(0x3ec45cdb, 0xf5702fdb, 0x101fd28f) == 0x6c6fecca
    ensures Add(0xcc5cac49, 0x6c6fecca) == 0x38cc9913 && Add(0x886e7a22, 0xcc5cac49) == 0x54cb266b
  {}

  lemma Rounds56(b: seq<bv8>)
    requires |b| == 64 && IsPaddedAbc(b)
    ensures Rounds(Start(), b, 56) ==
            Working(0x38cc9913, 0x3ec45cdb, 0xf5702fdb, 0x101fd28f, 0x54cb266b, 0xe50e1b4f, 0x9f4787c3, 0x529e7d00)
  {
    hide Start, Rounds, Temp1, Temp2, Add, K, W, IsPaddedAbc;
    Rounds52(b);
    FourRounds(b, Start(), 52);
    Words3(b);
    Constants6();
    Sums52To56();
  }

  lemma Sums56To60()
    ensures Temp1(0x54cb266b, 0xe50e1b4f, 0x9f4787c3, 0x529e7d00, 0x748f82ee, 0xef57b9cd) == 0x8b3ebddd
    ensures Temp2(0x38cc9913, 0x3ec45cdb, 0xf5702fdb) == 0x7192ca9e
    ensures Add(0x8b3ebddd, 0x7192ca9e) == 0xfcd1887b && Add(0x101fd28f, 0x8b3ebddd) == 0x9b5e906c
    ensures Temp1(0x9b5e906c, 0x54cb266b, 0xe50e1b4f, 0x9f4787c3, 0x78a5636f, 0xebe6b238) == 0x88d3d0b3
    ensures Temp2(0xfcd1887b, 0x38cc9913, 0x3ec45cdb) == 0x378f03bc
    ensures Add(0x88d3d0b3, 0x378f03bc) == 0xc062d46f && Add(0xf5702fdb, 0x88d3d0b3) == 0x7e44008e
    ensures Temp1(0x7e44008e, 0x9b5e906c, 0x54cb266b, 0xe50e1b4f, 0x84c87814, 0x9fe3095e) == 0x2ebf62eb
    ensures Temp2(0xc062d46f, 0xfcd1887b, 0x38cc9913) == 0xd0f7a187
    ensures Add(0x2ebf62eb, 0xd0f7a187) == 0xffb70472 && Add(0x3ec45cdb, 0x2ebf62eb) == 0x6d83bfc6
    ensures Temp1(0x6d83bfc6, 0x7e44008e, 0x9b5e906c, 0x54cb266b, 0x8cc70208, 0x78bc8d4b) == 0x794f142a
    ensures Temp2(0xffb70472, 0xc062d46f, 0xfcd1887b) == 0x3d5f7bd5
    ensures Add(0x794f142a, 0x3d5f7bd5) == 0xb6ae8fff && Add(0x38cc9913, 0x794f142a) == 0xb21bad3d
  {}

  lemma Rounds60(b: seq<bv8>)
    requires |b| == 64 && IsPaddedAbc(b)
    ensures Rounds(Start(), b, 60) ==
            Working(0xb6ae8fff, 0xffb70472, 0xc062d46f, 0xfcd1887b, 0xb21bad3d, 0x6d83bfc6, 0x7e44008e, 0x9b5e906c)
  {
    hide Start, Rounds, Temp1, Temp2, Add, K, W, IsPaddedAbc;
    Rounds56(b);
    FourRounds(b, Start(), 56);
    Words3(b);
    Constants7();
    Sums56To60();
  }

  lemma Sums60To64()
    ensures Temp1(0xb21bad3d, 0x6d83bfc6, 0x7e44008e, 0x9b5e906c, 0x90befffa, 0xa43fcf15) == 0x994dc019
    ensures Temp2(0xb6ae8fff, 0xffb70472, 0xc062d46f) == 0x1f106cd0
    ensures Add(0x994dc019, 0x1f106cd0) == 0xb85e2ce9 && Add(0xfcd1887b, 0x994dc019) == 0x961f4894
    ensures Temp1(0x961f4894, 0xb21bad3d, 0x6d83bfc6, 0x7e44008e, 0xa4506ceb, 0x668b2ff8) == 0xd42a5147
    ensures Temp2(0xb85e2ce9, 0xb6ae8fff, 0xffb70472) == 0x30a7fc25
    ensures Add(0xd42a5147, 0x30a7fc25) == 0x04d24d6c && Add(0xc062d46f, 0xd42a5147) == 0x948d25b6
    ensures Temp1(0x948d25b6, 0x961f4894, 0xb21bad3d, 0x6d83bfc6, 0xbef9a3f7, 0xeeaba2cc) == 0xfb5b0d9e
    ensures Temp2(0x04d24d6c, 0xb85e2ce9, 0xb6ae8fff) == 0xd83f13c7
    ensures Add(0xfb5b0d9e, 0xd83f13c7) == 0xd39a2165 && Add(0xffb70472, 0xfb5b0d9e) == 0xfb121210
    ensures Temp1(0xfb121210, 0x948d25b6, 0x961f4894, 0xb21bad3d, 0xc67178f2, 0x12b1edeb) == 0xa8467f25
    ensures Temp2(0xd39a2165, 0x04d24d6c, 0xb85e2ce9) == 0xa827b133
    ensures Add(0xa8467f25, 0xa827b133) == 0x506e3058 && Add(0xb6ae8fff, 0xa8467f25) == 0x5ef50f24
  {}

  lemma Rounds64(b: seq<bv8>)
    requires |b| == 64 && IsPaddedAbc(b)
    ensures Rounds(Start(), b, 64) ==
            Working(0x506e3058, 0xd39a2165, 0x04d24d6c, 0xb85e2ce9, 0x5ef50f24, 0xfb121210, 0x948d25b6, 0x961f4894)
  {
    hide Start, Rounds, Temp1, Temp2, Add, K, W, IsPaddedAbc;
    Rounds60(b);
    FourRounds(b, Start(), 60);
    Words3(b);
    Constants7();
    Sums60To64();
  }

  lemma Constants0()
    ensures K(0) == 0x428a2f98 && K(1) == 0x71374491 && K(2) == 0xb5c0fbcf && K(3) == 0xe9b5dba5
    ensures K(4) == 0x3956c25b && K(5) == 0x59f111f1 && K(6) == 0x923f82a4 && K(7) == 0xab1c5ed5
  {}

  lemma Constants1()
    ensures K(8) == 0xd807aa98 && K(9) == 0x12835b01 && K(10) == 0x243185be && K(11) == 0x550c7dc3
    ensures K(12) == 0x72be5d74 && K(13) == 0x80deb1fe && K(14) == 0x9bdc06a7 && K(15) == 0xc19bf174
  {}

  lemma Constants2()
    ensures K(16) == 0xe49b69c1 && K(17) == 0xefbe4786 && K(18) == 0x0fc19dc6 && K(19) == 0x240ca1cc
    ensures K(20) == 0x2de92c6f && K(21) == 0x4a7484aa && K(22) == 0x5cb0a9dc && K(23) == 0x76f988da
  {}

  lemma Constants3()
    ensures K(24) == 0x983e5152 && K(25) == 0xa831c66d && K(26) == 0xb00327c8 && K(27) == 0xbf597fc7
    ensures K(28) == 0xc6e00bf3 && K(29) == 0xd5a79147 && K(30) == 0x06ca6351 && K(31) == 0x14292967
  {}

  lemma Constants4()
    ensures K(32) == 0x27b70a85 && K(33) == 0x2e1b2138 && K(34) == 0x4d2c6dfc && K(35) == 0x53380d13
    ensures K(36) == 0x650a7354 && K(37) == 0x766a0abb && K(38) == 0x81c2c92e && K(39) == 0x92722c85
  {}

  lemma Constants5()
    ensures K(40) == 0xa2bfe8a1 && K(41) == 0xa81a664b && K(42) == 0xc24b8b70 && K(43) == 0xc76c51a3
    ensures K(44) == 0xd192e819 && K(45) == 0xd6990624 && K(46) == 0xf40e3585 && K(47) == 0x106aa070
  {}

  lemma Constants6()
    ensures K(48) == 0x19a4c116 && K(49) == 0x1e376c08 && K(50) == 0x2748774c && K(51) == 0x34b0bcb5
    ensures K(52) == 0x391c0cb3 && K(53) == 0x4ed8aa4a && K(54) == 0x5b9cca4f && K(55) == 0x682e6ff3
  {}

  lemma Constants7()
    ensures K(56) == 0x748f82ee && K(57) == 0x78a5636f && K(58) == 0x84c87814 && K(59) == 0x8cc70208
    ensures K(60) == 0x90befffa && K(61) == 0xa4506ceb && K(62) == 0xbef9a3f7 && K(63) == 0xc67178f2
  {}

  // ----- The digest -----

  lemma FinalSums(v: Working)
    requires v ==
             Working(0x506e3058, 0xd39a2165, 0x04d24d6c, 0xb85e2ce9, 0x5ef50f24, 0xfb121210, 0x948d25b6, 0x961f4894)
    ensures AddWorking(H0, v) ==
            [0xba7816bf, 0x8f01cfea, 0x414140de, 0x5dae2223, 0xb00361a3, 0x96177a9c, 0xb410ff61, 0xf20015ad]
  {}

  lemma OneCompression(hash: seq<bv32>, b: seq<bv8>)
    requires |hash| == 8 && |b| == 64
    ensures HashBlocks(hash, b) == AddWorking(hash, Rounds(InState(hash), b, ROUNDS))
  {
    hide Rounds, AddWorking;
    assert b[..64] == b && b[64..] == [];
  }

  lemma HashOfAbc(message: seq<bv8>)
    requires message == ABC
    ensures HashBlocks(H0, Padded(message)) ==
            [0xba7816bf, 0x8f01cfea, 0x414140de, 0x5dae2223, 0xb00361a3, 0x96177a9c, 0xb410ff61, 0xf20015ad]
  {
    hide Rounds, AddWorking, IsPaddedAbc, InState;
    PaddedAbc(message);
    Rounds64(Padded(message));
    OneCompression(H0, Padded(message));
    FinalSums(Rounds(Start(), Padded(message), ROUNDS));
  }

  function WordBytes(x: bv32): (b: seq<bv8>)
    ensures |b| == 4
  {
    [WordByte(x, 0), WordByte(x, 1), WordByte(x, 2), WordByte(x, 3)]
  }

  lemma DigestWord(hash: seq<bv32>, k: nat)
    requires |hash| == 8 && k < 8
    ensures DigestBytes(hash)[4 * k..4 * k + 4] == WordBytes(hash[k])
  {
    hide WordByte;
  }

  lemma LastBytes()
    ensures WordBytes(0xba7816bf) == [0xba, 0x78, 0x16, 0xbf]
    ensures WordBytes(0x8f01cfea) == [0x8f, 0x01, 0xcf, 0xea]
    ensures WordBytes(0x414140de) == [0x41, 0x41, 0x40, 0xde]
    ensures WordBytes(0x5dae2223) == [0x5d, 0xae, 0x22, 0x23]
    ensures WordBytes(0xb00361a3) == [0xb0, 0x03, 0x61, 0xa3]
    ensures WordBytes(0x96177a9c) == [0x96, 0x17, 0x7a, 0x9c]
    ensures WordBytes(0xb410ff61) == [0xb4, 0x10, 0xff, 0x61]
    ensures WordBytes(0xf20015ad) == [0xf2, 0x00, 0x15, 0xad]
  {}

  /** The digest of "abc" is the one the standard's example gives. */
  lemma DigestOfAbc(message: seq<bv8>)
    requires message == [0x61, 0x62, 0x63]
    ensures Digest(message)[0..4] == [0xba, 0x78, 0x16, 0xbf]
    ensures Digest(message)[4..8] == [0x8f, 0x01, 0xcf, 0xea]
    ensures Digest(message)[8..12] == [0x41, 0x41, 0x40, 0xde]
    ensures Digest(message)[12..16] == [0x5d, 0xae, 0x22, 0x23]
    ensures Digest(message)[16..20] == [0xb0, 0x03, 0x61, 0xa3]
    ensures Digest(message)[20..24] == [0x96, 0x17, 0x7a, 0x9c]
    ensures Digest(message)[24..28] == [0xb4, 0x10, 0xff, 0x61]
    ensures Digest(message)[28..32] == [0xf2, 0x00, 0x15, 0xad]
  {
    hide HashBlocks, Padded, DigestBytes, WordBytes;
    HashOfAbc(message);
    LastBytes();
    var hash := HashBlocks(H0, Padded(message));
    DigestWord(hash, 0); DigestWord(hash, 1); DigestWord(hash, 2); DigestWord(hash, 3);
    DigestWord(hash, 4); DigestWord(hash, 5); DigestWord(hash, 6); DigestWord(hash, 7);
  }
}
