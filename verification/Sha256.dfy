/** SHA-256 as FIPS 180-4 defines it, for messages of whole bytes. */
module Fips180 {
  import opened Bytes

  /** The round constants, in rows of eight. */
  function ConstantRow(r: nat): (row: seq<bv32>)
    ensures |row| == 8
  {
    match r
    case 0 => [0x428a2f98, 0x71374491, 0xb5c0fbcf, 0xe9b5dba5, 0x3956c25b, 0x59f111f1, 0x923f82a4, 0xab1c5ed5]
    case 1 => [0xd807aa98, 0x12835b01, 0x243185be, 0x550c7dc3, 0x72be5d74, 0x80deb1fe, 0x9bdc06a7, 0xc19bf174]
    case 2 => [0xe49b69c1, 0xefbe4786, 0x0fc19dc6, 0x240ca1cc, 0x2de92c6f, 0x4a7484aa, 0x5cb0a9dc, 0x76f988da]
    case 3 => [0x983e5152, 0xa831c66d, 0xb00327c8, 0xbf597fc7, 0xc6e00bf3, 0xd5a79147, 0x06ca6351, 0x14292967]
    case 4 => [0x27b70a85, 0x2e1b2138, 0x4d2c6dfc, 0x53380d13, 0x650a7354, 0x766a0abb, 0x81c2c92e, 0x92722c85]
    case 5 => [0xa2bfe8a1, 0xa81a664b, 0xc24b8b70, 0xc76c51a3, 0xd192e819, 0xd6990624, 0xf40e3585, 0x106aa070]
    case 6 => [0x19a4c116, 0x1e376c08, 0x2748774c, 0x34b0bcb5, 0x391c0cb3, 0x4ed8aa4a, 0x5b9cca4f, 0x682e6ff3]
    case _ => [0x748f82ee, 0x78a5636f, 0x84c87814, 0x8cc70208, 0x90befffa, 0xa4506ceb, 0xbef9a3f7, 0xc67178f2]
  }

  /** How many rounds there are, with a constant for each. */
  const ROUNDS: nat := 64

  function K(t: nat): bv32
    requires t < ROUNDS
  {
    ConstantRow(t / 8)[t % 8]
  }

  const H0: seq<bv32> := [
    0x6a09e667, 0xbb67ae85, 0x3c6ef372, 0xa54ff53a, 0x510e527f, 0x9b05688c, 0x1f83d9ab, 0x5be0cd19]

  /** The width of the length field, in bytes. */
  const LENGTH_BYTES: nat := 8

  const TWO_TO_64 := 0x1_0000_0000_0000_0000

  // ----- Section 4.1.2: functions on words -----

  function Rotr(x: bv32, n: bv6): bv32
    requires 0 < n < 32
  {
    (x >> n) | (x << (32 - n))
  }

  function Ch(x: bv32, y: bv32, z: bv32): bv32 { (x & y) ^ (!x & z) }

  function Maj(x: bv32, y: bv32, z: bv32): bv32 { (x & y) ^ (x & z) ^ (y & z) }

  function BigSigma0(x: bv32): bv32 { Rotr(x, 2) ^ Rotr(x, 13) ^ Rotr(x, 22) }

  function BigSigma1(x: bv32): bv32 { Rotr(x, 6) ^ Rotr(x, 11) ^ Rotr(x, 25) }

  function SmallSigma0(x: bv32): bv32 { Rotr(x, 7) ^ Rotr(x, 18) ^ (x >> 3) }

  function SmallSigma1(x: bv32): bv32 { Rotr(x, 17) ^ Rotr(x, 19) ^ (x >> 10) }

  // ----- Section 6.2.2: the compression function -----

  function BigEndian(b0: bv8, b1: bv8, b2: bv8, b3: bv8): bv32 {
    ((b0 as bv32) << 24) | ((b1 as bv32) << 16) | ((b2 as bv32) << 8) | (b3 as bv32)
  }

  function Extend(w2: bv32, w7: bv32, w15: bv32, w16: bv32): bv32 {
    SmallSigma1(w2) + w7 + SmallSigma0(w15) + w16
  }

  /** Step 1: the message schedule. */
  function W(block: seq<bv8>, t: nat): bv32
    requires |block| == 64 && t < 64
  {
    if t < 16 then
      BigEndian(block[4 * t], block[4 * t + 1], block[4 * t + 2], block[4 * t + 3])
    else
      Extend(W(block, t - 2), W(block, t - 7), W(block, t - 15), W(block, t - 16))
  }

  datatype Working = Working(a: bv32, b: bv32, c: bv32, d: bv32, e: bv32, f: bv32, g: bv32, h: bv32)

  function Temp1(e: bv32, f: bv32, g: bv32, h: bv32, k: bv32, w: bv32): bv32 {
    h + BigSigma1(e) + Ch(e, f, g) + k + w
  }

  function Temp2(a: bv32, b: bv32, c: bv32): bv32 { BigSigma0(a) + Maj(a, b, c) }

  function Add(x: bv32, y: bv32): bv32 { x + y }

  function Round(v: Working, k: bv32, w: bv32): Working {
    var t1 := Temp1(v.e, v.f, v.g, v.h, k, w);
    Working(Add(t1, Temp2(v.a, v.b, v.c)), v.a, v.b, v.c, Add(v.d, t1), v.e, v.f, v.g)
  }

  /** Step 3, up to round `t`; there is one round for each constant. */
  function Rounds(v: Working, block: seq<bv8>, t: nat): Working
    requires |block| == 64 && t <= ROUNDS
    decreases t
  {
    if t == 0 then v else Round(Rounds(v, block, t - 1), K(t - 1), W(block, t - 1))
  }

  /** Step 2. */
  function InState(hash: seq<bv32>): Working
    requires |hash| == 8
  {
    Working(hash[0], hash[1], hash[2], hash[3], hash[4], hash[5], hash[6], hash[7])
  }

  /** Step 4. */
  function AddWorking(hash: seq<bv32>, v: Working): (hash': seq<bv32>)
    requires |hash| == 8
    ensures |hash'| == 8
  {
    [Add(hash[0], v.a), Add(hash[1], v.b), Add(hash[2], v.c), Add(hash[3], v.d),
     Add(hash[4], v.e), Add(hash[5], v.f), Add(hash[6], v.g), Add(hash[7], v.h)]
  }

  function Compress(hash: seq<bv32>, block: seq<bv8>): (hash': seq<bv32>)
    requires |hash| == 8 && |block| == 64
    ensures |hash'| == 8
  {
    AddWorking(hash, Rounds(InState(hash), block, ROUNDS))
  }

  function HashBlocks(hash: seq<bv32>, data: seq<bv8>): (hash': seq<bv32>)
    requires |hash| == 8 && |data| % 64 == 0
    ensures |hash'| == 8
    decreases |data|
  {
    if data == [] then hash else OneBlockLess(|data|); HashBlocks(Compress(hash, data[..64]), data[64..])
  }

  lemma OneBlockLess(n: nat)
    requires n > 0 && n % 64 == 0
    ensures n >= 64 && (n - 64) % 64 == 0
  {}

  // ----- Section 5.1.1: padding -----

  function Zeros(n: nat): (z: seq<bv8>)
    ensures |z| == n
  {
    seq(n, i => 0)
  }

  /** The `k` low bytes of a number, most significant first. */
  function BytesOf(n: nat, k: nat): (b: seq<bv8>)
    ensures |b| == k
    decreases k
  {
    if k == 0 then [] else BytesOf(n / 256, k - 1) + [Byte(n % 256)]
  }

  /** How many zero bytes follow the byte that carries the one bit. */
  function ZeroBytes(length: nat): (z: nat)
    ensures z < 64 && (length + 1 + z) % 64 == 56
  {
    (55 - length) % 64
  }

  /** The length field holds the number of bits, 64 bits wide. */
  function Padding(length: nat): (p: seq<bv8>)
    ensures |p| == 1 + ZeroBytes(length) + LENGTH_BYTES
  {
    [0x80] + Zeros(ZeroBytes(length)) + BytesOf(8 * length % TWO_TO_64, LENGTH_BYTES)
  }

  function Padded(message: seq<bv8>): (p: seq<bv8>)
    ensures |p| % 64 == 0
  {
    PaddedLength(message);
    message + Padding(|message|)
  }

  lemma PaddedLength(message: seq<bv8>)
    ensures |message + Padding(|message|)| % 64 == 0
  {
    hide Byte, BytesOf;
    WholeBlocks(|message| + 1 + ZeroBytes(|message|));
  }

  lemma WholeBlocks(n: nat)
    requires n % 64 == 56
    ensures (n + 8) % 64 == 0
  {}

  // ----- The digest -----

  function WordByte(x: bv32, i: nat): bv8
    requires i < 4
  {
    match i
    case 0 => ((x >> 24) & 0xFF) as bv8
    case 1 => ((x >> 16) & 0xFF) as bv8
    case 2 => ((x >> 8) & 0xFF) as bv8
    case _ => (x & 0xFF) as bv8
  }

  function DigestBytes(hash: seq<bv32>): (d: seq<bv8>)
    requires |hash| == 8
    ensures |d| == 32
  {
    seq(32, i requires 0 <= i < 32 => WordByte(hash[i / 4], i % 4))
  }

  function Digest(message: seq<bv8>): (d: seq<bv8>)
    ensures |d| == 32
  {
    DigestBytes(HashBlocks(H0, Padded(message)))
  }

  // ----- The padding is the standard's, and loses nothing -----

  /** Section 5.1.1 counts in bits: a one, then the least k zeros with l + 1 + k = 448 modulo
      512.  The byte that carries the one holds seven of them. */
  lemma PaddingIsMinimal(length: nat, k: nat)
    requires (8 * length + 1 + k) % 512 == 448
    ensures 7 + 8 * ZeroBytes(length) <= k
    ensures (8 * length + 1 + (7 + 8 * ZeroBytes(length))) % 512 == 448
  {}

  lemma {:induction false} BytesOfIsInjective(m: nat, n: nat, k: nat, bound: nat)
    requires BytesOf(m, k) == BytesOf(n, k)
    requires bound == Power(256, k) && m < bound && n < bound
    ensures m == n
    decreases k
  {
    hide Byte, Value;
    if k == 0 {
    } else {
      var v, w := BytesOf(m, k), BytesOf(n, k);
      assert v[..k - 1] == BytesOf(m / 256, k - 1) && w[..k - 1] == BytesOf(n / 256, k - 1);
      BytesOfIsInjective(m / 256, n / 256, k - 1, Power(256, k - 1));
      assert v[k - 1] == w[k - 1];
      ByteValue(m % 256);
      ByteValue(n % 256);
    }
  }

  function Power(b: nat, e: nat): nat { if e == 0 then 1 else b * Power(b, e - 1) }

  lemma PaddedEnds(m: seq<bv8>)
    ensures Padded(m) == m + [0x80] + Zeros(ZeroBytes(|m|)) + BytesOf(8 * |m| % TWO_TO_64, LENGTH_BYTES)
  {
    hide BytesOf, Zeros, ZeroBytes;
    Regroup(m, [0x80], Zeros(ZeroBytes(|m|)), BytesOf(8 * |m| % TWO_TO_64, LENGTH_BYTES));
  }

  lemma Regroup(a: seq<bv8>, b: seq<bv8>, c: seq<bv8>, d: seq<bv8>)
    ensures a + (b + c + d) == a + b + c + d
  {}

  /** Different messages (of lengths the standard covers) have different padded forms. */
  lemma PaddingIsInjective(m: seq<bv8>, n: seq<bv8>)
    requires Padded(m) == Padded(n) && 8 * |m| < TWO_TO_64 && 8 * |n| < TWO_TO_64
    ensures m == n
  {
    hide BytesOf, Byte, Padded, Zeros, Power;
    PowerOf256();
    var p := Padded(m);
    var v, w := BytesOf(8 * |m|, LENGTH_BYTES), BytesOf(8 * |n|, LENGTH_BYTES);
    PaddedEnds(m);
    PaddedEnds(n);
    assert v == p[|p| - LENGTH_BYTES..] == w;
    BytesOfIsInjective(8 * |m|, 8 * |n|, LENGTH_BYTES, TWO_TO_64);
    assert m == p[..|m|] && n == p[..|n|];
  }

  lemma PowerOf256()
    ensures Power(256, LENGTH_BYTES) == TWO_TO_64
  {}

  lemma {:induction false} HashBlocksAppend(hash: seq<bv32>, data: seq<bv8>, block: seq<bv8>)
    requires |hash| == 8 && |data| % 64 == 0 && |block| == 64
    ensures HashBlocks(hash, data + block) == Compress(HashBlocks(hash, data), block)
    decreases |data|
  {
    hide Compress;
    if data == [] {
      assert data + block == block && block[..64] == block;
    } else {
      assert (data + block)[..64] == data[..64] && (data + block)[64..] == data[64..] + block;
      HashBlocksAppend(Compress(hash, data[..64]), data[64..], block);
    }
  }
}

/** What the two streaming implementations share: the state of a hash that has absorbed some
    bytes, of which the last `n` wait in the buffer. */
module Absorbing {
  import opened Bytes
  import opened Fips180

  ghost predicate Absorbed(state: seq<bv32>, buffer: seq<bv8>, n: nat, data: seq<bv8>) {
    && |state| == 8 && |buffer| == 64 && n <= 64 && n <= |data|
    && (|data| - n) % 64 == 0
    && buffer[..n] == data[|data| - n..]
    && state == HashBlocks(H0, data[..|data| - n])
  }

  /** Copying bytes behind those in the buffer absorbs them. */
  lemma Copied(state: seq<bv32>, buffer: seq<bv8>, n: nat, data: seq<bv8>, more: seq<bv8>, buffer': seq<bv8>)
    requires Absorbed(state, buffer, n, data) && n + |more| <= 64
    requires |buffer'| == 64 && buffer'[..n] == buffer[..n] && buffer'[n..n + |more|] == more
    ensures Absorbed(state, buffer', n + |more|, data + more)
  {
    hide HashBlocks;
    var all := data + more;
    assert buffer'[..n + |more|] == buffer'[..n] + more;
    assert all[|all| - n - |more|..] == data[|data| - n..] + more;
    assert all[..|all| - n - |more|] == data[..|data| - n];
  }

  /** Compressing a full buffer empties it. */
  lemma Compressed(state: seq<bv32>, buffer: seq<bv8>, data: seq<bv8>, state': seq<bv32>)
    requires Absorbed(state, buffer, 64, data) && state' == Compress(state, buffer)
    ensures Absorbed(state', buffer, 0, data)
  {
    hide HashBlocks, Compress;
    var before := data[..|data| - 64];
    assert data == before + buffer;
    assert data[..|data|] == data;
    HashBlocksAppend(H0, before, buffer);
  }

  /** Byte number `k` of a 64-bit count, lowest first. */
  function CountByte(count: nat, k: nat): bv8
    decreases k
  {
    if k == 0 then Byte(count % 256) else CountByte(count / 256, k - 1)
  }

  lemma {:induction false} CountBytes(count: nat, k: nat, i: nat)
    requires i < k
    ensures BytesOf(count, k)[i] == CountByte(count, k - 1 - i)
    decreases k
  {
    hide Byte;
    if i < k - 1 {
      CountBytes(count / 256, k - 1, i);
    }
  }

  lemma ZerosGrow(n: nat)
    ensures Zeros(n) + [0] == Zeros(n + 1)
  {}

  /** What the last block holds once every byte of the padding is in. */
  lemma PaddingDone(m: seq<bv8>, data: seq<bv8>, z: nat, count: nat, tail: seq<bv8>)
    requires count == 8 * |m| % TWO_TO_64 && z == ZeroBytes(|m|)
    requires |tail| == 8 && forall i :: 0 <= i < 8 ==> tail[i] == CountByte(count, 7 - i)
    requires data == m + [0x80] + Zeros(z) + tail
    ensures data == Padded(m)
  {
    hide Byte, BytesOf, CountByte;
    forall i | 0 <= i < LENGTH_BYTES
      ensures tail[i] == BytesOf(count, LENGTH_BYTES)[i]
    {
      CountBytes(count, LENGTH_BYTES, i);
    }
    assert tail == BytesOf(count, LENGTH_BYTES);
  }

  lemma LengthsAdd(m: nat, n: nat)
    ensures (8 * m % TWO_TO_64 + 8 * n % TWO_TO_64) % TWO_TO_64 == 8 * (m + n) % TWO_TO_64
  {}

  lemma NothingAbsorbed(buffer: seq<bv8>)
    requires |buffer| == 64
    ensures Absorbed(H0, buffer, 0, [])
  {}

  method LoadInitialHash(state: array<bv32>)
    requires state.Length == 8
    modifies state
    ensures state[..] == H0
  {
    var initial := H0;
    assert |initial| == 8;
    hide H0;
    for i := 0 to 8
      invariant state[..i] == initial[..i]
    {
      state[i] := initial[i];
    }
    assert state[..] == initial;
  }

  lemma EightWords(s: seq<bv32>, a: bv32, b: bv32, c: bv32, d: bv32, e: bv32, f: bv32, g: bv32, h: bv32)
    requires |s| == 8 && s[0] == a && s[1] == b && s[2] == c && s[3] == d
    requires s[4] == e && s[5] == f && s[6] == g && s[7] == h
    ensures s == [a, b, c, d, e, f, g, h]
  {}

  lemma BufferedCount(state: seq<bv32>, buffer: seq<bv8>, n: nat, data: seq<bv8>)
    requires Absorbed(state, buffer, n, data) && n < 64
    ensures n == |data| % 64
  {
    hide HashBlocks;
  }

  lemma ZerosAreThePadding(length: nat, z: nat, z': nat)
    requires length % 64 + 1 <= 56 ==> z == 0 && z' == 55 - length % 64
    requires length % 64 + 1 > 56 ==> z == 63 - length % 64 && z' == 56
    ensures z + z' == ZeroBytes(length)
  {}

  /** With an empty buffer the state is the hash of all that was absorbed. */
  lemma NoBytesLeft(state: seq<bv32>, buffer: seq<bv8>, data: seq<bv8>)
    requires Absorbed(state, buffer, 0, data)
    ensures |data| % 64 == 0 && state == HashBlocks(H0, data)
  {
    hide HashBlocks, H0;
    assert data[..|data|] == data;
  }

  function ScheduleOf(block: seq<bv8>, n: nat): (w: seq<bv32>)
    requires |block| == 64 && n <= 64
    ensures |w| == n
  {
    seq(n, t requires 0 <= t < n => W(block, t))
  }

  lemma ScheduleLoads(block: seq<bv8>, i: nat)
    requires |block| == 64 && i < 16
    ensures ScheduleOf(block, i + 1)
              == ScheduleOf(block, i) + [BigEndian(block[4 * i], block[4 * i + 1], block[4 * i + 2], block[4 * i + 3])]
  {
    hide BigEndian, Extend;
  }

  lemma ScheduleExtends(block: seq<bv8>, i: nat)
    requires |block| == 64 && 16 <= i < 64
    ensures var w := ScheduleOf(block, i);
            ScheduleOf(block, i + 1) == w + [Extend(w[i - 2], w[i - 7], w[i - 15], w[i - 16])]
  {
    hide BigEndian, Extend;
  }

  lemma DigestWord(hash: seq<bv32>, i: nat)
    requires |hash| == 8 && i < 8
    ensures var d := DigestBytes(hash);
            && d[4 * i] == WordByte(hash[i], 0) && d[4 * i + 1] == WordByte(hash[i], 1)
            && d[4 * i + 2] == WordByte(hash[i], 2) && d[4 * i + 3] == WordByte(hash[i], 3)
  {
    hide WordByte;
  }

  /** The state words, written out most significant byte first. */
  method WriteDigest(state: array<bv32>) returns (digest: array<bv8>)
    requires state.Length == 8
    ensures fresh(digest) && digest[..] == DigestBytes(state[..])
  {
    hide WordByte, DigestBytes;
    ghost var hash := state[..];
    digest := new bv8[32];
    for i := 0 to 8
      invariant state[..] == hash
      invariant forall j :: 0 <= j < 4 * i ==> digest[j] == DigestBytes(hash)[j]
    {
      DigestWord(hash, i);
      digest[4 * i] := WordByte(state[i], 0);
      digest[4 * i + 1] := WordByte(state[i], 1);
      digest[4 * i + 2] := WordByte(state[i], 2);
      digest[4 * i + 3] := WordByte(state[i], 3);
    }
  }

  // ----- What both hashers do with their buffer and their state -----

  /** Stores one byte behind the `n` in the buffer. */
  method Put(buffer: array<bv8>, n: nat, b: bv8, ghost state: seq<bv32>, ghost data: seq<bv8>) returns (n': nat)
    requires buffer.Length == 64 && n < 64 && Absorbed(state, buffer[..], n, data)
    modifies buffer
    ensures n' == n + 1 && Absorbed(state, buffer[..], n', data + [b])
  {
    hide HashBlocks, H0;
    ghost var before := buffer[..];
    buffer[n] := b;
    n' := n + 1;
    Copied(state, before, n, data, [b], buffer[..]);
  }

  /** Stores zero bytes until the buffer holds `limit` bytes. */
  method PutZeros(buffer: array<bv8>, n: nat, limit: nat, ghost state: seq<bv32>, ghost data: seq<bv8>)
      returns (n': nat)
    requires buffer.Length == 64 && n <= limit <= 64 && Absorbed(state, buffer[..], n, data)
    modifies buffer
    ensures n' == limit && Absorbed(state, buffer[..], n', data + Zeros(limit - n))
  {
    hide HashBlocks, H0, Absorbed;
    n' := n;
    assert data + Zeros(0) == data;
    while n' < limit
      invariant n <= n' <= limit
      invariant Absorbed(state, buffer[..], n', data + Zeros(n' - n))
    {
      ghost var z := n' - n;
      n' := Put(buffer, n', 0, state, data + Zeros(z));
      ZerosGrow(z);
      assert data + Zeros(z) + [0] == data + Zeros(z + 1);
    }
  }

  /** Stores the number of bits, most significant byte first. */
  method PutCount(buffer: array<bv8>, n: nat, count: nat, ghost state: seq<bv32>, ghost data: seq<bv8>)
      returns (n': nat, ghost tail: seq<bv8>)
    requires buffer.Length == 64 && n == 56 && Absorbed(state, buffer[..], n, data)
    modifies buffer
    ensures n' == 64 && |tail| == 8 && forall i :: 0 <= i < 8 ==> tail[i] == CountByte(count, 7 - i)
    ensures Absorbed(state, buffer[..], n', data + tail)
  {
    hide HashBlocks, H0, CountByte, Absorbed;
    n', tail := n, [];
    assert data + tail == data;
    for k := 8 downto 0
      invariant n' == 64 - k && |tail| == 8 - k
      invariant forall i :: 0 <= i < 8 - k ==> tail[i] == CountByte(count, 7 - i)
      invariant Absorbed(state, buffer[..], n', data + tail)
    {
      var b := CountByte(count, k);
      n' := Put(buffer, n', b, state, data + tail);
      assert data + tail + [b] == data + (tail + [b]);
      tail := tail + [b];
    }
  }

  /** The order in which a hasher adds up a schedule word makes no difference. */
  ghost predicate Extends(extend: (bv32, bv32, bv32, bv32) -> bv32) {
    forall w2, w7, w15, w16 :: extend(w2, w7, w15, w16) == Extend(w2, w7, w15, w16)
  }

  method Schedule(buffer: array<bv8>, extend: (bv32, bv32, bv32, bv32) -> bv32) returns (w: array<bv32>)
    requires buffer.Length == 64 && Extends(extend)
    ensures fresh(w) && w[..] == ScheduleOf(buffer[..], 64)
  {
    hide BigEndian, Extend, ScheduleOf;
    ghost var block := buffer[..];
    w := new bv32[64];
    for i := 0 to 16
      invariant buffer[..] == block && w[..i] == ScheduleOf(block, i)
    {
      ScheduleLoads(block, i);
      w[i] := BigEndian(buffer[4 * i], buffer[4 * i + 1], buffer[4 * i + 2], buffer[4 * i + 3]);
      assert w[..i + 1] == w[..i] + [w[i]];
    }
    for i := 16 to 64
      invariant buffer[..] == block && w[..i] == ScheduleOf(block, i)
    {
      ghost var known := w[..i];
      ScheduleExtends(block, i);
      w[i] := extend(w[i - 2], w[i - 7], w[i - 15], w[i - 16]);
      assert w[i] == Extend(known[i - 2], known[i - 7], known[i - 15], known[i - 16]);
      assert w[..i + 1] == known + [w[i]];
    }
    assert w[..] == w[..64];
  }

  method RunRounds(state: array<bv32>, w: array<bv32>, ghost block: seq<bv8>) returns (v: Working)
    requires state.Length == 8 && |block| == 64 && w[..] == ScheduleOf(block, 64)
    ensures v == Rounds(InState(state[..]), block, ROUNDS)
  {
    hide K, Temp1, Temp2, Add, W;
    var a, b, c, d := state[0], state[1], state[2], state[3];
    var e, f, g, h := state[4], state[5], state[6], state[7];
    for i := 0 to 64
      invariant Working(a, b, c, d, e, f, g, h) == Rounds(InState(state[..]), block, i)
    {
      assert w[i] == w[..][i];
      var temp1 := Temp1(e, f, g, h, K(i), w[i]);
      var temp2 := Temp2(a, b, c);
      h := g;
      g := f;
      f := e;
      e := Add(d, temp1);
      d := c;
      c := b;
      b := a;
      a := Add(temp1, temp2);
    }
    v := Working(a, b, c, d, e, f, g, h);
  }

  method AddToState(state: array<bv32>, v: Working)
    requires state.Length == 8
    modifies state
    ensures state[..] == AddWorking(old(state[..]), v)
  {
    hide Add;
    ghost var hash := state[..];
    state[0] := Add(state[0], v.a);
    state[1] := Add(state[1], v.b);
    state[2] := Add(state[2], v.c);
    state[3] := Add(state[3], v.d);
    state[4] := Add(state[4], v.e);
    state[5] := Add(state[5], v.f);
    state[6] := Add(state[6], v.g);
    state[7] := Add(state[7], v.h);
    EightWords(state[..], state[0], state[1], state[2], state[3], state[4], state[5], state[6], state[7]);
  }

  /** Compresses a full buffer into the state. */
  method CompressBuffer(
      state: array<bv32>, buffer: array<bv8>, extend: (bv32, bv32, bv32, bv32) -> bv32, ghost data: seq<bv8>)
    requires state.Length == 8 && buffer.Length == 64 && Extends(extend) && Absorbed(state[..], buffer[..], 64, data)
    modifies state
    ensures state[..] == Compress(old(state[..]), buffer[..]) && Absorbed(state[..], buffer[..], 0, data)
  {
    hide K, H0, HashBlocks, Temp1, Temp2, Add, W, Absorbed, Extends;
    ghost var block, before := buffer[..], state[..];
    var w := Schedule(buffer, extend);
    var v := RunRounds(state, w, block);
    AddToState(state, v);
    assert state[..] == Compress(before, block);
    Compressed(before, block, data, state[..]);
  }

  /** Stores the padding of the message and compresses what is left of it. */
  method PadAndCompress(
      state: array<bv32>, buffer: array<bv8>, buffered: nat, count: nat,
      extend: (bv32, bv32, bv32, bv32) -> bv32, ghost fed: seq<bv8>)
    requires state.Length == 8 && buffer.Length == 64 && buffered < 64 && Extends(extend)
    requires Absorbed(state[..], buffer[..], buffered, fed) && count == 8 * |fed| % TWO_TO_64
    modifies state, buffer
    ensures state[..] == HashBlocks(H0, Padded(fed))
  {
    hide Compress, HashBlocks, Padding, Padded, H0, CountByte, Absorbed, Byte, BytesOf, Extends;
    ghost var data := fed + [0x80];
    ghost var z := 0;
    BufferedCount(state[..], buffer[..], buffered, fed);
    var n := Put(buffer, buffered, 0x80, state[..], fed);
    if n > 56 {
      z := 64 - n;
      n := PutZeros(buffer, n, 64, state[..], data);
      CompressBuffer(state, buffer, extend, data + Zeros(z));
      n := 0;
    }
    ghost var z' := 56 - n;
    assert data + Zeros(0) == data;
    n := PutZeros(buffer, n, 56, state[..], data + Zeros(z));
    assert data + Zeros(z) + Zeros(z') == data + Zeros(z + z');
    ghost var body := data + Zeros(z + z');
    ghost var tail;
    n, tail := PutCount(buffer, n, count, state[..], body);
    ZerosAreThePadding(|fed|, z, z');
    PaddingDone(fed, body + tail, z + z', count, tail);
    CompressBuffer(state, buffer, extend, body + tail);
    NoBytesLeft(state[..], buffer[..], Padded(fed));
  }
}

/** The hasher of the shared library: one byte at a time. */
module SharedSha256 {
  import opened Fips180
  import opened Absorbing
  import opened Bytes

  class Sha256 {
    const state: array<bv32>
    const buffer: array<bv8>
    var bitLength: nat
    var bufferLength: nat
    /** Everything absorbed since the last reset. */
    ghost var fed: seq<bv8>

    ghost predicate Valid()
      reads this, state, buffer
    {
      && state.Length == 8 && buffer.Length == 64 && bufferLength < 64
      && Absorbed(state[..], buffer[..], bufferLength, fed)
      && bitLength == 8 * |fed| % TWO_TO_64
    }

    constructor ()
      ensures Valid() && fed == [] && fresh(state) && fresh(buffer)
    {
      state := new bv32[8];
      buffer := new bv8[64];
      bitLength, bufferLength, fed := 0, 0, [];
      new;
      Reset();
    }

    method Reset()
      requires state.Length == 8 && buffer.Length == 64
      modifies this, state
      ensures Valid() && fed == []
    {
      hide H0, HashBlocks, Absorbed;
      bitLength, bufferLength, fed := 0, 0, [];
      LoadInitialHash(state);
      NothingAbsorbed(buffer[..]);
    }

    method Update(data: seq<bv8>)
      requires Valid()
      modifies this, state, buffer
      ensures Valid() && fed == old(fed) + data
    {
      hide Compress, HashBlocks, Absorbed;
      LengthsAdd(|fed|, |data|);
      bitLength := (bitLength + 8 * |data| % TWO_TO_64) % TWO_TO_64;
      assert fed + data[..0] == fed;
      for i := 0 to |data|
        invariant bufferLength < 64 && fed == old(fed)
        invariant bitLength == 8 * (|fed| + |data|) % TWO_TO_64
        invariant Absorbed(state[..], buffer[..], bufferLength, fed + data[..i])
      {
        bufferLength := Put(buffer, bufferLength, data[i], state[..], fed + data[..i]);
        assert fed + data[..i + 1] == fed + data[..i] + [data[i]];
        if bufferLength == 64 {
          ProcessBlock(fed + data[..i + 1]);
          bufferLength := 0;
        }
      }
      assert data[..|data|] == data;
      fed := fed + data;
    }

    /** Compresses the full buffer. */
    method ProcessBlock(ghost data: seq<bv8>)
      requires state.Length == 8 && buffer.Length == 64 && Absorbed(state[..], buffer[..], 64, data)
      modifies state
      ensures state[..] == Compress(old(state[..]), buffer[..]) && Absorbed(state[..], buffer[..], 0, data)
    {
      CompressBuffer(state, buffer, Extend, data);
    }

    method Finish() returns (digest: array<bv8>)
      requires Valid()
      modifies this, state, buffer
      ensures Valid() && fed == []
      ensures fresh(digest) && digest[..] == Digest(old(fed))
    {
      hide Compress, HashBlocks, Padded, Absorbed, DigestBytes, H0;
      PadAndCompress(state, buffer, bufferLength, bitLength, Extend, fed);
      digest := WriteDigest(state);
      Reset();
    }
  }

  /** The one-shot helper. */
  method HashOf(data: seq<bv8>) returns (digest: array<bv8>)
    ensures digest[..] == Digest(data)
  {
    var hasher := new Sha256();
    hasher.Reset();
    hasher.Update(data);
    assert [] + data == data;
    digest := hasher.Finish();
  }
}

/** The hasher of the client: whole runs of bytes are copied into the buffer. */
module ClientSha256 {
  import opened Fips180
  import opened Absorbing
  import opened Bytes

  class Sha256 {
    const state: array<bv32>
    const buffer: array<bv8>
    var bitCount: nat
    var bufferSize: nat
    var finalized: bool
    /** Everything absorbed. */
    ghost var fed: seq<bv8>

    ghost predicate Valid()
      reads this, state, buffer
    {
      && state.Length == 8 && buffer.Length == 64
      && (!finalized ==>
           && bufferSize < 64
           && Absorbed(state[..], buffer[..], bufferSize, fed)
           && bitCount == 8 * |fed| % TWO_TO_64)
      && (finalized ==> state[..] == HashBlocks(H0, Padded(fed)))
    }

    constructor ()
      ensures Valid() && fed == [] && !finalized && fresh(state) && fresh(buffer)
    {
      hide H0, HashBlocks, Absorbed, Padded;
      state := new bv32[8];
      buffer := new bv8[64];
      bitCount, bufferSize, finalized, fed := 0, 0, false, [];
      new;
      LoadInitialHash(state);
      NothingAbsorbed(buffer[..]);
    }

    /** Absorbs `data`; a finalized hasher refuses (the source throws) and keeps its state. */
    method Update(data: seq<bv8>) returns (accepted: bool)
      requires Valid()
      modifies this, state, buffer
      ensures Valid() && accepted == !old(finalized) && finalized == old(finalized)
      ensures fed == if accepted then old(fed) + data else old(fed)
    {
      hide Compress, HashBlocks, Padded, Absorbed;
      if finalized {
        return false;
      }
      LengthsAdd(|fed|, |data|);
      bitCount := (bitCount + 8 * |data| % TWO_TO_64) % TWO_TO_64;
      var offset := 0;
      assert fed + data[..0] == fed;
      while offset < |data|
        invariant offset <= |data| && bufferSize < 64 && fed == old(fed) && !finalized
        invariant bitCount == 8 * (|fed| + |data|) % TWO_TO_64
        invariant Absorbed(state[..], buffer[..], bufferSize, fed + data[..offset])
      {
        var copied := Take(data, offset, fed + data[..offset]);
        TakenSoFar(fed, data, offset, copied);
        offset := offset + copied;
      }
      assert data[..|data|] == data;
      fed := fed + data;
      accepted := true;
    }

    /** One turn of the copying loop. */
    method Take(data: seq<bv8>, offset: nat, ghost absorbed: seq<bv8>) returns (count: nat)
      requires state.Length == 8 && buffer.Length == 64 && bufferSize < 64 && offset < |data|
      requires Absorbed(state[..], buffer[..], bufferSize, absorbed)
      modifies this`bufferSize, state, buffer
      ensures bufferSize < 64 && 0 < count <= |data| - offset
      ensures Absorbed(state[..], buffer[..], bufferSize, absorbed + data[offset..offset + count])
    {
      hide HashBlocks, Absorbed;
      count := if |data| - offset < 64 - bufferSize then |data| - offset else 64 - bufferSize;
      Copy(data, offset, count, absorbed);
      if bufferSize == 64 {
        Transform(absorbed + data[offset..offset + count]);
        bufferSize := 0;
      }
    }

    /** The block copy behind the buffered bytes. */
    method Copy(data: seq<bv8>, offset: nat, count: nat, ghost absorbed: seq<bv8>)
      requires state.Length == 8 && buffer.Length == 64 && bufferSize + count <= 64 && offset + count <= |data|
      requires Absorbed(state[..], buffer[..], bufferSize, absorbed)
      modifies this`bufferSize, buffer
      ensures bufferSize == old(bufferSize) + count
      ensures Absorbed(state[..], buffer[..], bufferSize, absorbed + data[offset..offset + count])
    {
      hide HashBlocks;
      ghost var before := buffer[..];
      for i := 0 to count
        invariant bufferSize == old(bufferSize)
        invariant forall j :: 0 <= j < bufferSize ==> buffer[j] == before[j]
        invariant forall j :: bufferSize <= j < bufferSize + i ==> buffer[j] == data[offset + (j - bufferSize)]
      {
        buffer[bufferSize + i] := data[offset + i];
      }
      assert buffer[..bufferSize] == before[..bufferSize];
      assert buffer[bufferSize..bufferSize + count] == data[offset..offset + count];
      Copied(state[..], before, bufferSize, absorbed, data[offset..offset + count], buffer[..]);
      bufferSize := bufferSize + count;
    }

    /** Compresses the full buffer. */
    method Transform(ghost data: seq<bv8>)
      requires state.Length == 8 && buffer.Length == 64 && Absorbed(state[..], buffer[..], 64, data)
      modifies state
      ensures state[..] == Compress(old(state[..]), buffer[..]) && Absorbed(state[..], buffer[..], 0, data)
    {
      OrderOfSums();
      CompressBuffer(state, buffer, ExtendFromTheOldest, data);
    }

    /** The digest of everything absorbed; asking again gives it again. */
    method Finalize() returns (digest: array<bv8>)
      requires Valid()
      modifies this, state, buffer
      ensures Valid() && finalized && fed == old(fed)
      ensures fresh(digest) && digest[..] == Digest(fed)
    {
      hide Compress, HashBlocks, Padded, Absorbed, DigestBytes, H0;
      if !finalized {
        OrderOfSums();
        PadAndCompress(state, buffer, bufferSize, bitCount, ExtendFromTheOldest, fed);
        finalized := true;
      }
      digest := WriteDigest(state);
    }
  }

  lemma TakenSoFar(fed: seq<bv8>, data: seq<bv8>, offset: nat, count: nat)
    requires offset + count <= |data|
    ensures fed + data[..offset] + data[offset..offset + count] == fed + data[..offset + count]
  {}

  /** The schedule sum in the client's order. */
  function ExtendFromTheOldest(w2: bv32, w7: bv32, w15: bv32, w16: bv32): bv32 {
    w16 + SmallSigma0(w15) + w7 + SmallSigma1(w2)
  }

  lemma SameSum(w2: bv32, w7: bv32, w15: bv32, w16: bv32)
    ensures ExtendFromTheOldest(w2, w7, w15, w16) == Extend(w2, w7, w15, w16)
  {}

  lemma OrderOfSums()
    ensures Extends(ExtendFromTheOldest)
  {
    hide Extend, ExtendFromTheOldest;
    forall w2, w7, w15, w16
      ensures ExtendFromTheOldest(w2, w7, w15, w16) == Extend(w2, w7, w15, w16)
    {
      SameSum(w2, w7, w15, w16);
    }
  }

  function Flatten(pieces: seq<seq<bv8>>): seq<bv8>
    decreases |pieces|
  {
    if pieces == [] then [] else Flatten(pieces[..|pieces| - 1]) + pieces[|pieces| - 1]
  }

  /** The compressor hashes a file in whatever pieces it reads: however the content is cut,
      the digest is that of the whole, and the one the shared library computes. */
  method HashFile(pieces: seq<seq<bv8>>) returns (digest: array<bv8>)
    ensures digest[..] == Digest(Flatten(pieces))
  {
    var sha := new Sha256();
    for i := 0 to |pieces|
      invariant sha.Valid() && !sha.finalized && fresh(sha) && fresh(sha.state) && fresh(sha.buffer)
      invariant sha.fed == Flatten(pieces[..i])
    {
      assert pieces[..i + 1][..i] == pieces[..i];
      if |pieces[i]| > 0 {
        var accepted := sha.Update(pieces[i]);
      } else {
        assert Flatten(pieces[..i]) + pieces[i] == Flatten(pieces[..i]);
      }
    }
    assert pieces[..|pieces|] == pieces;
    digest := sha.Finalize();
  }
}
