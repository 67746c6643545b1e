/** Where the constants of FIPS 180-4 come from, and what its logical functions select. */
module Fips180Constants {
  import opened Fips180

  /** The number a word stands for. */
  function Number(x: bv32): nat {
    ((WordByte(x, 0) as nat * 0x100 + WordByte(x, 1) as nat) * 0x100 + WordByte(x, 2) as nat) * 0x100
    + WordByte(x, 3) as nat
  }

  const UNIT := 0x1_0000_0000

  /** The first 32 bits of the fractional part of the cube root of `p`, whose whole part is `n`. */
  predicate CubeRootBits(p: nat, n: nat, bits: nat) {
    var x := n * UNIT + bits;
    bits < UNIT && x * x * x <= p * UNIT * UNIT * UNIT < (x + 1) * (x + 1) * (x + 1)
  }

  predicate SquareRootBits(p: nat, n: nat, bits: nat) {
    var x := n * UNIT + bits;
    bits < UNIT && x * x <= p * UNIT * UNIT < (x + 1) * (x + 1)
  }

  // ----- Section 4.2.2: the round constants are cube roots of the first 64 primes -----

  ghost predicate CubeRootOf(p: nat, x: bv32) { exists n: nat :: CubeRootBits(p, n, Number(x)) }

  ghost predicate SquareRootOf(p: nat, x: bv32) { exists n: nat :: SquareRootBits(p, n, Number(x)) }

  lemma Numbers0()
    ensures Number(0x428a2f98) == 0x428a2f98 && Number(0x71374491) == 0x71374491
    ensures Number(0xb5c0fbcf) == 0xb5c0fbcf && Number(0xe9b5dba5) == 0xe9b5dba5
    ensures Number(0x3956c25b) == 0x3956c25b && Number(0x59f111f1) == 0x59f111f1
    ensures Number(0x923f82a4) == 0x923f82a4 && Number(0xab1c5ed5) == 0xab1c5ed5
  {}

  lemma Roots0()
    ensures CubeRootBits(2, 1, 0x428a2f98) && CubeRootBits(3, 1, 0x71374491)
    ensures CubeRootBits(5, 1, 0xb5c0fbcf) && CubeRootBits(7, 1, 0xe9b5dba5)
    ensures CubeRootBits(11, 2, 0x3956c25b) && CubeRootBits(13, 2, 0x59f111f1)
    ensures CubeRootBits(17, 2, 0x923f82a4) && CubeRootBits(19, 2, 0xab1c5ed5)
  {}

  lemma Numbers1()
    ensures Number(0xd807aa98) == 0xd807aa98 && Number(0x12835b01) == 0x12835b01
    ensures Number(0x243185be) == 0x243185be && Number(0x550c7dc3) == 0x550c7dc3
    ensures Number(0x72be5d74) == 0x72be5d74 && Number(0x80deb1fe) == 0x80deb1fe
    ensures Number(0x9bdc06a7) == 0x9bdc06a7 && Number(0xc19bf174) == 0xc19bf174
  {}

  lemma Roots1()
    ensures CubeRootBits(23, 2, 0xd807aa98) && CubeRootBits(29, 3, 0x12835b01)
    ensures CubeRootBits(31, 3, 0x243185be) && CubeRootBits(37, 3, 0x550c7dc3)
    ensures CubeRootBits(41, 3, 0x72be5d74) && CubeRootBits(43, 3, 0x80deb1fe)
    ensures CubeRootBits(47, 3, 0x9bdc06a7) && CubeRootBits(53, 3, 0xc19bf174)
  {}

  lemma Numbers2()
    ensures Number(0xe49b69c1) == 0xe49b69c1 && Number(0xefbe4786) == 0xefbe4786
    ensures Number(0x0fc19dc6) == 0x0fc19dc6 && Number(0x240ca1cc) == 0x240ca1cc
    ensures Number(0x2de92c6f) == 0x2de92c6f && Number(0x4a7484aa) == 0x4a7484aa
    ensures Number(0x5cb0a9dc) == 0x5cb0a9dc && Number(0x76f988da) == 0x76f988da
  {}

  lemma Roots2()
    ensures CubeRootBits(59, 3, 0xe49b69c1) && CubeRootBits(61, 3, 0xefbe4786)
    ensures CubeRootBits(67, 4, 0x0fc19dc6) && CubeRootBits(71, 4, 0x240ca1cc)
    ensures CubeRootBits(73, 4, 0x2de92c6f) && CubeRootBits(79, 4, 0x4a7484aa)
    ensures CubeRootBits(83, 4, 0x5cb0a9dc) && CubeRootBits(89, 4, 0x76f988da)
  {}

  lemma Numbers3()
    ensures Number(0x983e5152) == 0x983e5152 && Number(0xa831c66d) == 0xa831c66d
    ensures Number(0xb00327c8) == 0xb00327c8 && Number(0xbf597fc7) == 0xbf597fc7
    ensures Number(0xc6e00bf3) == 0xc6e00bf3 && Number(0xd5a79147) == 0xd5a79147
    ensures Number(0x06ca6351) == 0x06ca6351 && Number(0x14292967) == 0x14292967
  {}

  lemma Roots3()
    ensures CubeRootBits(97, 4, 0x983e5152) && CubeRootBits(101, 4, 0xa831c66d)
    ensures CubeRootBits(103, 4, 0xb00327c8) && CubeRootBits(107, 4, 0xbf597fc7)
    ensures CubeRootBits(109, 4, 0xc6e00bf3) && CubeRootBits(113, 4, 0xd5a79147)
    ensures CubeRootBits(127, 5, 0x06ca6351) && CubeRootBits(131, 5, 0x14292967)
  {}

  lemma Numbers4()
    ensures Number(0x27b70a85) == 0x27b70a85 && Number(0x2e1b2138) == 0x2e1b2138
    ensures Number(0x4d2c6dfc) == 0x4d2c6dfc && Number(0x53380d13) == 0x53380d13
    ensures Number(0x650a7354) == 0x650a7354 && Number(0x766a0abb) == 0x766a0abb
    ensures Number(0x81c2c92e) == 0x81c2c92e && Number(0x92722c85) == 0x92722c85
  {}

  lemma Roots4()
    ensures CubeRootBits(137, 5, 0x27b70a85) && CubeRootBits(139, 5, 0x2e1b2138)
    ensures CubeRootBits(149, 5, 0x4d2c6dfc) && CubeRootBits(151, 5, 0x53380d13)
    ensures CubeRootBits(157, 5, 0x650a7354) && CubeRootBits(163, 5, 0x766a0abb)
    ensures CubeRootBits(167, 5, 0x81c2c92e) && CubeRootBits(173, 5, 0x92722c85)
  {}

  lemma Numbers5()
    ensures Number(0xa2bfe8a1) == 0xa2bfe8a1 && Number(0xa81a664b) == 0xa81a664b
    ensures Number(0xc24b8b70) == 0xc24b8b70 && Number(0xc76c51a3) == 0xc76c51a3
    ensures Number(0xd192e819) == 0xd192e819 && Number(0xd6990624) == 0xd6990624
    ensures Number(0xf40e3585) == 0xf40e3585 && Number(0x106aa070) == 0x106aa070
  {}

  lemma Roots5()
    ensures CubeRootBits(179, 5, 0xa2bfe8a1) && CubeRootBits(181, 5, 0xa81a664b)
    ensures CubeRootBits(191, 5, 0xc24b8b70) && CubeRootBits(193, 5, 0xc76c51a3)
    ensures CubeRootBits(197, 5, 0xd192e819) && CubeRootBits(199, 5, 0xd6990624)
    ensures CubeRootBits(211, 5, 0xf40e3585) && CubeRootBits(223, 6, 0x106aa070)
  {}

  lemma Numbers6()
    ensures Number(0x19a4c116) == 0x19a4c116 && Number(0x1e376c08) == 0x1e376c08
    ensures Number(0x2748774c) == 0x2748774c && Number(0x34b0bcb5) == 0x34b0bcb5
    ensures Number(0x391c0cb3) == 0x391c0cb3 && Number(0x4ed8aa4a) == 0x4ed8aa4a
    ensures Number(0x5b9cca4f) == 0x5b9cca4f && Number(0x682e6ff3) == 0x682e6ff3
  {}

  lemma Roots6()
    ensures CubeRootBits(227, 6, 0x19a4c116) && CubeRootBits(229, 6, 0x1e376c08)
    ensures CubeRootBits(233, 6, 0x2748774c) && CubeRootBits(239, 6, 0x34b0bcb5)
    ensures CubeRootBits(241, 6, 0x391c0cb3) && CubeRootBits(251, 6, 0x4ed8aa4a)
    ensures CubeRootBits(257, 6, 0x5b9cca4f) && CubeRootBits(263, 6, 0x682e6ff3)
  {}

  lemma Numbers7()
    ensures Number(0x748f82ee) == 0x748f82ee && Number(0x78a5636f) == 0x78a5636f
    ensures Number(0x84c87814) == 0x84c87814 && Number(0x8cc70208) == 0x8cc70208
    ensures Number(0x90befffa) == 0x90befffa && Number(0xa4506ceb) == 0xa4506ceb
    ensures Number(0xbef9a3f7) == 0xbef9a3f7 && Number(0xc67178f2) == 0xc67178f2
  {}

  lemma Roots7()
    ensures CubeRootBits(269, 6, 0x748f82ee) && CubeRootBits(271, 6, 0x78a5636f)
    ensures CubeRootBits(277, 6, 0x84c87814) && CubeRootBits(281, 6, 0x8cc70208)
    ensures CubeRootBits(283, 6, 0x90befffa) && CubeRootBits(293, 6, 0xa4506ceb)
    ensures CubeRootBits(307, 6, 0xbef9a3f7) && CubeRootBits(311, 6, 0xc67178f2)
  {}

  lemma InitialNumbers()
    ensures Number(0x6a09e667) == 0x6a09e667 && Number(0xbb67ae85) == 0xbb67ae85
    ensures Number(0x3c6ef372) == 0x3c6ef372 && Number(0xa54ff53a) == 0xa54ff53a
    ensures Number(0x510e527f) == 0x510e527f && Number(0x9b05688c) == 0x9b05688c
    ensures Number(0x1f83d9ab) == 0x1f83d9ab && Number(0x5be0cd19) == 0x5be0cd19
  {}

  lemma InitialRoots()
    ensures SquareRootBits(2, 1, 0x6a09e667) && SquareRootBits(3, 1, 0xbb67ae85)
    ensures SquareRootBits(5, 2, 0x3c6ef372) && SquareRootBits(7, 2, 0xa54ff53a)
    ensures SquareRootBits(11, 3, 0x510e527f) && SquareRootBits(13, 3, 0x9b05688c)
    ensures SquareRootBits(17, 4, 0x1f83d9ab) && SquareRootBits(19, 4, 0x5be0cd19)
  {}

  /** The first 64 primes, in rows of eight. */
  function PrimeRow(r: nat): (row: seq<nat>)
    ensures |row| == 8
  {
    match r
    case 0 => [2, 3, 5, 7, 11, 13, 17, 19]
    case 1 => [23, 29, 31, 37, 41, 43, 47, 53]
    case 2 => [59, 61, 67, 71, 73, 79, 83, 89]
    case 3 => [97, 101, 103, 107, 109, 113, 127, 131]
    case 4 => [137, 139, 149, 151, 157, 163, 167, 173]
    case 5 => [179, 181, 191, 193, 197, 199, 211, 223]
    case 6 => [227, 229, 233, 239, 241, 251, 257, 263]
    case _ => [269, 271, 277, 281, 283, 293, 307, 311]
  }

  lemma Row0()
    ensures forall c :: 0 <= c < 8 ==> CubeRootOf(PrimeRow(0)[c], ConstantRow(0)[c])
  {
    hide CubeRootBits, Number;
    Numbers0();
    Roots0();
  }

  lemma Row1()
    ensures forall c :: 0 <= c < 8 ==> CubeRootOf(PrimeRow(1)[c], ConstantRow(1)[c])
  {
    hide CubeRootBits, Number;
    Numbers1();
    Roots1();
  }

  lemma Row2()
    ensures forall c :: 0 <= c < 8 ==> CubeRootOf(PrimeRow(2)[c], ConstantRow(2)[c])
  {
    hide CubeRootBits, Number;
    Numbers2();
    Roots2();
  }

  lemma Row3()
    ensures forall c :: 0 <= c < 8 ==> CubeRootOf(PrimeRow(3)[c], ConstantRow(3)[c])
  {
    hide CubeRootBits, Number;
    Numbers3();
    Roots3();
  }

  lemma Row4()
    ensures forall c :: 0 <= c < 8 ==> CubeRootOf(PrimeRow(4)[c], ConstantRow(4)[c])
  {
    hide CubeRootBits, Number;
    Numbers4();
    Roots4();
  }

  lemma Row5()
    ensures forall c :: 0 <= c < 8 ==> CubeRootOf(PrimeRow(5)[c], ConstantRow(5)[c])
  {
    hide CubeRootBits, Number;
    Numbers5();
    Roots5();
  }

  lemma Row6()
    ensures forall c :: 0 <= c < 8 ==> CubeRootOf(PrimeRow(6)[c], ConstantRow(6)[c])
  {
    hide CubeRootBits, Number;
    Numbers6();
    Roots6();
  }

  lemma Row7()
    ensures forall c :: 0 <= c < 8 ==> CubeRootOf(PrimeRow(7)[c], ConstantRow(7)[c])
  {
    hide CubeRootBits, Number;
    Numbers7();
    Roots7();
  }

  /** Every round constant is the start of the fractional part of the cube root of its prime. */
  lemma ConstantsAreCubeRoots(t: nat)
    requires t < ROUNDS
    ensures CubeRootOf(PrimeRow(t / 8)[t % 8], K(t))
  {
    hide CubeRootOf, PrimeRow, ConstantRow;
    match t / 8
    case 0 => Row0();
    case 1 => Row1();
    case 2 => Row2();
    case 3 => Row3();
    case 4 => Row4();
    case 5 => Row5();
    case 6 => Row6();
    case _ => Row7();
  }

  /** So is every word of the initial hash, of the square roots of the first eight primes. */
  lemma InitialHashIsSquareRoots(i: nat)
    requires i < 8
    ensures SquareRootOf(PrimeRow(0)[i], H0[i])
  {
    hide SquareRootBits, Number;
    InitialNumbers();
    InitialRoots();
  }

  // ----- Section 4.1.2: what the logical functions select -----

  /** Where `x` has a one, `Ch` has the bit of `y`, and elsewhere that of `z`. */
  lemma ChChooses(x: bv32, y: bv32, z: bv32)
    ensures Ch(x, y, z) & x == y & x
    ensures Ch(x, y, z) & !x == z & !x
  {}

  /** On any set of positions where `x` and `y` agree, `Maj` agrees with them. */
  lemma MajAgrees(x: bv32, y: bv32, z: bv32, positions: bv32)
    requires x & positions == y & positions
    ensures Maj(x, y, z) & positions == x & positions
  {}

  /** Where they do not, it sides with `z`. */
  lemma MajSidesWithTheThird(x: bv32, y: bv32, z: bv32)
    ensures Maj(x, y, z) & (x ^ y) == z & (x ^ y)
  {}
}
