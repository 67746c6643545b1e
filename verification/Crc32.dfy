/** CRC-32 as the client and the server compute it.

    The specification is the shift register of RFC 1952, section 8: `Shift` is one division
    step, `Feed` runs a byte string through the register, `Crc` adds the inversions before
    and after.  The two algorithms of the repository (a 256-entry table and a bit loop) are
    methods proved equal to it.  What a CRC is for, rejecting damaged data, is proved in
    module `ErrorDetection`.
 */
module Crc32 {

  const POLYNOMIAL: bv32 := 0xEDB88320
  const ALL_ONES: bv32 := 0xFFFFFFFF

  // ----- The register -----

  function Xor(a: bv32, b: bv32): bv32 { a ^ b }

  predicate Odd(c: bv32) { c & 1 == 1 }

  function Half(c: bv32): bv32 { c >> 1 }

  function Shift(c: bv32): bv32 {
    if Odd(c) then Xor(Half(c), POLYNOMIAL) else Half(c)
  }

  function ShiftN(c: bv32, n: nat): bv32
    decreases n
  {
    if n == 0 then c else ShiftN(Shift(c), n - 1)
  }

  function ByteStep(c: bv32, b: bv8): bv32 {
    ShiftN(Xor(c, b as bv32), 8)
  }

  function Feed(c: bv32, data: seq<bv8>): bv32
    decreases data
  {
    if data == [] then c else Feed(ByteStep(c, data[0]), data[1..])
  }

  function Crc(data: seq<bv8>): bv32 {
    Xor(Feed(ALL_ONES, data), ALL_ONES)
  }

  // ----- The two algorithms -----

  /** One table entry, by the loop of the table builder. */
  method TableEntry(index: bv32) returns (crc: bv32)
    ensures crc == ShiftN(index, 8)
  {
    crc := index;
    for i := 0 to 8
      invariant ShiftN(crc, 8 - i) == ShiftN(index, 8)
    {
      if crc & 1 == 1 {
        crc := (crc >> 1) ^ POLYNOMIAL;
      } else {
        crc := crc >> 1;
      }
    }
  }

  /** The table RFC 1952 prescribes: eight division steps of each index. */
  function Entry(i: nat): bv32
    requires i < 256
  {
    ShiftN(i as bv32, 8)
  }

  method BuildTable() returns (table: array<bv32>)
    ensures fresh(table) && table.Length == 256
    ensures forall i :: 0 <= i < 256 ==> table[i] == Entry(i)
  {
    hide ShiftN;
    table := new bv32[256];
    for i := 0 to 256
      invariant forall j :: 0 <= j < i ==> table[j] == Entry(j)
    {
      var entry := TableEntry(i as bv32);
      assert entry == Entry(i);
      table[i] := entry;
    }
  }

  function LowByte(c: bv32): (index: nat)
    ensures index < 256
  {
    IndexIsByte(c & 0xFF);
    (c & 0xFF) as int
  }

  function DropByte(c: bv32): bv32 { c >> 8 }

  /** The table-driven accumulator of the shared library. */
  class Accumulator {
    var crc: bv32

    constructor ()
      ensures crc == ALL_ONES
    {
      crc := ALL_ONES;
    }

    method Reset()
      modifies this
      ensures crc == ALL_ONES
    {
      crc := ALL_ONES;
    }

    method Update(data: seq<bv8>)
      modifies this
      ensures crc == Feed(old(crc), data)
    {
      var table := BuildTable();
      for i := 0 to |data|
        invariant forall j :: 0 <= j < 256 ==> table[j] == Entry(j)
        invariant Feed(crc, data[i..]) == Feed(old(crc), data)
      {
        assert data[i..][1..] == data[i + 1..];
        TableStep(crc, data[i]);
        var index := LowByte(Xor(crc, data[i] as bv32));
        crc := Xor(DropByte(crc), table[index]);
      }
    }

    method Value() returns (v: bv32)
      ensures v == Xor(crc, ALL_ONES)
    {
      v := Xor(crc, ALL_ONES);
    }
  }

  /** The one-shot helper of the shared library. */
  method TableDriven(data: seq<bv8>) returns (v: bv32)
    ensures v == Crc(data)
  {
    var crc := new Accumulator();
    crc.Update(data);
    v := crc.Value();
  }

  /** The server's bit loop. */
  method BitByBit(data: seq<bv8>) returns (v: bv32)
    ensures v == Crc(data)
  {
    var crc := ALL_ONES;
    for k := 0 to |data|
      invariant Feed(crc, data[k..]) == Feed(ALL_ONES, data)
    {
      assert data[k..][1..] == data[k + 1..];
      ghost var goal := ByteStep(crc, data[k]);
      crc := Xor(crc, data[k] as bv32);
      for i := 0 to 8
        invariant ShiftN(crc, 8 - i) == goal
      {
        var bit := crc & 1 == 1;
        ghost var before := crc;
        crc := crc >> 1;
        if bit {
          crc := crc ^ POLYNOMIAL;
        }
        assert crc == Shift(before);
      }
    }
    v := Xor(crc, ALL_ONES);
  }

  /** Feeding in pieces is feeding the whole. */
  lemma {:induction false} FeedAppends(c: bv32, a: seq<bv8>, b: seq<bv8>)
    ensures Feed(c, a + b) == Feed(Feed(c, a), b)
    decreases a
  {
    if a == [] {
      assert a + b == b;
    } else {
      assert (a + b)[1..] == a[1..] + b;
      FeedAppends(ByteStep(c, a[0]), a[1..], b);
    }
  }

  // ----- Why the table works: a step is linear -----

  lemma OddOfXor(x: bv32, y: bv32, z: bv32)
    requires z == Xor(x, y)
    ensures Odd(z) == (Odd(x) != Odd(y))
  {}

  lemma HalfOfXor(x: bv32, y: bv32, z: bv32)
    requires z == Xor(x, y)
    ensures Half(z) == Xor(Half(x), Half(y))
  {}

  lemma XorCommutes(a: bv32, b: bv32)
    ensures Xor(a, b) == Xor(b, a)
  {}

  lemma XorAssociates(a: bv32, b: bv32, c: bv32)
    ensures Xor(Xor(a, b), c) == Xor(a, Xor(b, c))
  {}

  lemma XorCancels(a: bv32, b: bv32)
    ensures Xor(Xor(a, b), b) == a
  {}

  lemma AddPolynomial(a: bv32, b: bv32, p: bv32)
    ensures Xor(Xor(a, b), p) == Xor(a, Xor(b, p)) == Xor(Xor(a, p), b)
    ensures Xor(Xor(a, p), Xor(b, p)) == Xor(a, b)
  {
    hide Xor;
    XorAssociates(a, b, p);
    XorAssociates(a, p, b);
    XorCommutes(b, p);
    XorAssociates(Xor(a, p), b, p);
    XorAssociates(a, Xor(p, b), p);
    XorCancels(b, p);
  }

  lemma ShiftIsLinear(a: bv32, b: bv32)
    ensures Shift(Xor(a, b)) == Xor(Shift(a), Shift(b))
  {
    hide Odd, Half, Xor;
    OddOfXor(a, b, Xor(a, b));
    HalfOfXor(a, b, Xor(a, b));
    AddPolynomial(Half(a), Half(b), POLYNOMIAL);
  }

  lemma {:induction false} ShiftNIsLinear(a: bv32, b: bv32, n: nat)
    ensures ShiftN(Xor(a, b), n) == Xor(ShiftN(a, n), ShiftN(b, n))
    decreases n
  {
    if n == 0 {
    } else {
      ShiftIsLinear(a, b);
      ShiftNIsLinear(Shift(a), Shift(b), n - 1);
    }
  }

  /** A register whose low byte is clear only moves right for eight steps. */
  lemma HighBytesSlide(h: bv32)
    requires h & 0xFF == 0
    ensures ShiftN(h, 8) == h >> 8
  {}

  /** One table lookup does the work of eight division steps, for every register and byte. */
  lemma TableStep(c: bv32, b: bv8)
    ensures Xor(DropByte(c), Entry(LowByte(Xor(c, b as bv32)))) == ByteStep(c, b)
  {
    var mixed := Xor(c, b as bv32);
    var high, low := mixed & 0xFFFFFF00, mixed & 0xFF;
    SplitLowByte(c, b, mixed);
    IndexIsByte(low);
    ShiftNIsLinear(high, low, 8);
    HighBytesSlide(high);
  }

  lemma SplitLowByte(c: bv32, b: bv8, mixed: bv32)
    requires mixed == Xor(c, b as bv32)
    ensures mixed == Xor(mixed & 0xFFFFFF00, mixed & 0xFF)
    ensures (mixed & 0xFFFFFF00) >> 8 == c >> 8
    ensures (mixed & 0xFFFFFF00) & 0xFF == 0
  {}

  lemma IndexIsByte(index: bv32)
    requires index < 256
    ensures index as int < 256 && (index as int) as bv32 == index
  {}
}

/** What a CRC is for: exactly which damage goes unnoticed.

    The register is viewed as a string of 32 bits, lowest first, and messages as bit strings
    in transmission order; the byte-wise register is shown to be the bit-serial one.
 */
module ErrorDetection {
  import opened Crc32

  // ----- Words as bit strings, lowest bit first -----

  function BitsOf(x: bv32, n: nat): (bits: seq<bool>)
    ensures |bits| == n
    decreases n
  {
    if n == 0 then [] else [Odd(x)] + BitsOf(Half(x), n - 1)
  }

  /** What is left of a word when its `n` low bits are gone. */
  function Rest(x: bv32, n: nat): bv32
    decreases n
  {
    if n == 0 then x else Rest(Half(x), n - 1)
  }

  lemma HalvesAgree(x: bv32, y: bv32)
    ensures x == y <==> Odd(x) == Odd(y) && Half(x) == Half(y)
  {}

  lemma {:induction false} WordIsItsBits(x: bv32, y: bv32, n: nat)
    requires BitsOf(x, n) == BitsOf(y, n) && Rest(x, n) == Rest(y, n)
    ensures x == y
    decreases n
  {
    if n == 0 {
    } else {
      var v, w := BitsOf(x, n), BitsOf(y, n);
      assert v[0] == w[0] && v[1..] == w[1..];
      WordIsItsBits(Half(x), Half(y), n - 1);
      HalvesAgree(x, y);
    }
  }

  lemma RestOf8(x: bv32)
    ensures Rest(x, 8) == x >> 8 && Rest(x, 7) == x >> 7
  {}

  lemma {:induction false} RestAdds(x: bv32, m: nat, n: nat)
    ensures Rest(x, m + n) == Rest(Rest(x, m), n)
    decreases m
  {
    if m == 0 {
    } else {
      RestAdds(Half(x), m - 1, n);
    }
  }

  lemma NoBitsAbove32(x: bv32)
    ensures Rest(x, 32) == 0
  {
    var x1 := Rest(x, 8);
    var x2 := Rest(x1, 8);
    var x3 := Rest(x2, 8);
    RestAdds(x, 8, 24);
    RestAdds(x1, 8, 16);
    RestAdds(x2, 8, 8);
    RestOf8(x);
    RestOf8(x1);
    RestOf8(x2);
    RestOf8(x3);
    FourBytesIsAll(x, x1, x2, x3);
  }

  lemma FourBytesIsAll(x: bv32, x1: bv32, x2: bv32, x3: bv32)
    requires x1 == x >> 8 && x2 == x1 >> 8 && x3 == x2 >> 8
    ensures x3 >> 8 == 0
  {}

  lemma {:induction false} NextBit(x: bv32, n: nat)
    ensures BitsOf(x, n + 1) == BitsOf(x, n) + [Odd(Rest(x, n))]
    decreases n
  {
    if n == 0 {
    } else {
      NextBit(Half(x), n - 1);
    }
  }

  function Xors(a: seq<bool>, b: seq<bool>): (r: seq<bool>)
    requires |a| == |b|
    ensures |r| == |a| && forall i :: 0 <= i < |a| ==> r[i] == (a[i] != b[i])
  {
    seq(|a|, i requires 0 <= i < |a| => a[i] != b[i])
  }

  lemma XorsPrepend(p: bool, q: bool, a: seq<bool>, b: seq<bool>)
    requires |a| == |b|
    ensures Xors([p] + a, [q] + b) == [p != q] + Xors(a, b)
  {}

  lemma FirstBit(x: bv32, n: nat)
    requires n > 0
    ensures BitsOf(x, n) == [Odd(x)] + BitsOf(Half(x), n - 1)
  {}

  lemma {:induction false} BitsOfXor(x: bv32, y: bv32, z: bv32, n: nat)
    requires z == Xor(x, y)
    ensures BitsOf(z, n) == Xors(BitsOf(x, n), BitsOf(y, n))
    decreases n
  {
    if n == 0 {
    } else {
      var x', y', z' := Half(x), Half(y), Half(z);
      assert z' == Xor(x', y') by { HalfOfXor(x, y, z); }
      assert Odd(z) == (Odd(x) != Odd(y)) by { OddOfXor(x, y, z); }
      BitsOfXor(x', y', z', n - 1);
      FirstBit(x, n);
      FirstBit(y, n);
      FirstBit(z, n);
      XorsPrepend(Odd(x), Odd(y), BitsOf(x', n - 1), BitsOf(y', n - 1));
    }
  }

  // ----- The register as a bit string -----

  function Zeros(n: nat): (z: seq<bool>)
    ensures |z| == n && forall i :: 0 <= i < n ==> !z[i]
  {
    seq(n, i => false)
  }

  function Generator(): (g: seq<bool>)
    ensures |g| == 32
  {
    BitsOf(POLYNOMIAL, 32)
  }

  lemma GeneratorEndsInOne()
    ensures Generator()[31]
  {
    hide BitsOf, Rest;
    NextBit(POLYNOMIAL, 31);
    RestAdds(POLYNOMIAL, 8, 23);
    RestAdds(0xEDB883, 8, 15);
    RestAdds(0xEDB8, 8, 7);
    RestOf8(POLYNOMIAL);
    RestOf8(0xEDB883);
    RestOf8(0xEDB8);
    RestOf8(0xED);
  }

  /** A division step on bits: the register moves on, and a departing one adds the generator. */
  function Step(r: seq<bool>): (r': seq<bool>)
    requires |r| == 32
    ensures |r'| == 32
  {
    if r[0] then Xors(r[1..] + [false], Generator()) else r[1..] + [false]
  }

  function StepN(r: seq<bool>, n: nat): (r': seq<bool>)
    requires |r| == 32
    ensures |r'| == 32
    decreases n
  {
    if n == 0 then r else StepN(Step(r), n - 1)
  }

  function AddBit(r: seq<bool>, b: bool): (r': seq<bool>)
    requires |r| == 32
    ensures |r'| == 32
  {
    r[0 := r[0] != b]
  }

  function FeedBits(r: seq<bool>, bits: seq<bool>): (r': seq<bool>)
    requires |r| == 32
    ensures |r'| == 32
    decreases bits
  {
    if bits == [] then r else FeedBits(Step(AddBit(r, bits[0])), bits[1..])
  }

  lemma ShiftIsStep(c: bv32)
    ensures BitsOf(Shift(c), 32) == Step(BitsOf(c, 32))
  {
    NoBitsAbove32(c);
    NextBit(c, 32);
    NextBit(Half(c), 31);
    assert BitsOf(Half(c), 32) == BitsOf(c, 32)[1..] + [false] by {
      assert BitsOf(c, 33) == [Odd(c)] + BitsOf(Half(c), 32);
    }
    BitsOfXor(Half(c), POLYNOMIAL, Xor(Half(c), POLYNOMIAL), 32);
  }

  lemma {:induction false} ShiftNIsStepN(c: bv32, n: nat)
    ensures BitsOf(ShiftN(c, n), 32) == StepN(BitsOf(c, 32), n)
    decreases n
  {
    if n == 0 {
    } else {
      ShiftIsStep(c);
      ShiftNIsStepN(Shift(c), n - 1);
    }
  }

  lemma {:induction false} FeedBitsAppends(r: seq<bool>, a: seq<bool>, b: seq<bool>)
    requires |r| == 32
    ensures FeedBits(r, a + b) == FeedBits(FeedBits(r, a), b)
    decreases a
  {
    if a == [] {
      assert a + b == b;
    } else {
      assert (a + b)[1..] == a[1..] + b;
      FeedBitsAppends(Step(AddBit(r, a[0])), a[1..], b);
    }
  }

  lemma StepPastFirstBit(r: seq<bool>, w: seq<bool>)
    requires |r| == 32 && 0 < |w| <= 32
    ensures Step(Xors(r, w + Zeros(32 - |w|))) == Xors(Step(AddBit(r, w[0])), w[1..] + Zeros(33 - |w|))
  {}

  /** Bits can be added to the register ahead of the steps that would reach them. */
  lemma {:induction false} AddingAheadIsFeeding(r: seq<bool>, w: seq<bool>)
    requires |r| == 32 && |w| <= 32
    ensures FeedBits(r, w) == StepN(Xors(r, w + Zeros(32 - |w|)), |w|)
    decreases w
  {
    if w == [] {
      assert Xors(r, w + Zeros(32)) == r;
    } else {
      StepPastFirstBit(r, w);
      AddingAheadIsFeeding(Step(AddBit(r, w[0])), w[1..]);
    }
  }

  function ByteBits(b: bv8): (bits: seq<bool>)
    ensures |bits| == 8
  {
    BitsOf(b as bv32, 8)
  }

  function Bits(data: seq<bv8>): (bits: seq<bool>)
    ensures |bits| == 8 * |data|
  {
    if data == [] then [] else ByteBits(data[0]) + Bits(data[1..])
  }

  lemma ByteEndsAt8(b: bv8)
    ensures Rest(b as bv32, 8) == 0
  {}

  lemma {:induction false} ZeroHasNoBits(n: nat)
    ensures BitsOf(0, n) == Zeros(n)
    decreases n
  {
    if n == 0 {
    } else {
      assert Half(0) == 0 && !Odd(0);
      ZeroHasNoBits(n - 1);
    }
  }

  lemma {:induction false} BitsSplit(x: bv32, m: nat, n: nat)
    ensures BitsOf(x, m + n) == BitsOf(x, m) + BitsOf(Rest(x, m), n)
    decreases m
  {
    if m == 0 {
    } else {
      BitsSplit(Half(x), m - 1, n);
    }
  }

  lemma ByteStepIsEightBits(c: bv32, b: bv8)
    ensures BitsOf(ByteStep(c, b), 32) == FeedBits(BitsOf(c, 32), ByteBits(b))
  {
    var word := b as bv32;
    var mixed := Xor(c, word);
    ByteEndsAt8(b);
    BitsSplit(word, 8, 24);
    ZeroHasNoBits(24);
    BitsOfXor(c, word, mixed, 32);
    AddingAheadIsFeeding(BitsOf(c, 32), ByteBits(b));
    ShiftNIsStepN(mixed, 8);
  }

  /** The byte-wise register is the bit-serial one. */
  lemma {:induction false} FeedIsFeedBits(c: bv32, data: seq<bv8>)
    ensures BitsOf(Feed(c, data), 32) == FeedBits(BitsOf(c, 32), Bits(data))
    decreases data
  {
    if data == [] {
    } else {
      ByteStepIsEightBits(c, data[0]);
      FeedBitsAppends(BitsOf(c, 32), ByteBits(data[0]), Bits(data[1..]));
      FeedIsFeedBits(ByteStep(c, data[0]), data[1..]);
    }
  }

  // ----- Damage alone decides -----

  lemma StepIsLinear(r: seq<bool>, s: seq<bool>)
    requires |r| == |s| == 32
    ensures Step(Xors(r, s)) == Xors(Step(r), Step(s))
  {}

  lemma {:induction false} FeedBitsIsLinear(r: seq<bool>, s: seq<bool>, a: seq<bool>, b: seq<bool>)
    requires |r| == |s| == 32 && |a| == |b|
    ensures FeedBits(Xors(r, s), Xors(a, b)) == Xors(FeedBits(r, a), FeedBits(s, b))
    decreases a
  {
    if a == [] {
    } else {
      var x, y := AddBit(r, a[0]), AddBit(s, b[0]);
      assert AddBit(Xors(r, s), Xors(a, b)[0]) == Xors(x, y);
      assert Xors(a, b)[1..] == Xors(a[1..], b[1..]);
      StepIsLinear(x, y);
      FeedBitsIsLinear(Step(x), Step(y), a[1..], b[1..]);
    }
  }

  lemma CrcIsInjectiveInTheRegister(x: bv32, y: bv32)
    ensures Xor(x, ALL_ONES) == Xor(y, ALL_ONES) <==> x == y
  {}

  /** Whether damage goes unnoticed depends on the damaged bits alone, never on the message:
      it does exactly when they drive an empty register back to empty. */
  lemma DetectionDependsOnlyOnTheError(a: seq<bv8>, b: seq<bv8>)
    requires |a| == |b|
    ensures Crc(a) == Crc(b) <==> FeedBits(Zeros(32), Xors(Bits(a), Bits(b))) == Zeros(32)
  {
    var x, y, ones := Feed(ALL_ONES, a), Feed(ALL_ONES, b), BitsOf(ALL_ONES, 32);
    FeedIsFeedBits(ALL_ONES, a);
    FeedIsFeedBits(ALL_ONES, b);
    FeedBitsIsLinear(ones, ones, Bits(a), Bits(b));
    assert Xors(ones, ones) == Zeros(32);
    var v, w := BitsOf(x, 32), BitsOf(y, 32);
    assert v == w <==> Xors(v, w) == Zeros(32) by {
      if Xors(v, w) == Zeros(32) {
        assert forall i :: 0 <= i < 32 ==> v[i] == w[i] by {
          assert forall i :: 0 <= i < 32 ==> !Xors(v, w)[i];
        }
      }
    }
    if v == w {
      NoBitsAbove32(x);
      NoBitsAbove32(y);
      WordIsItsBits(x, y, 32);
    }
    CrcIsInjectiveInTheRegister(x, y);
  }

  /** Up to 32 bits empty a register exactly when they spell its content. */
  lemma {:induction false} BitsThatEmptyTheRegister(r: seq<bool>, w: seq<bool>)
    requires |r| == 32 && |w| <= 32
    ensures FeedBits(r, w) == Zeros(32) <==> r == w + Zeros(32 - |w|)
    decreases w
  {
    if w == [] {
    } else {
      var x := AddBit(r, w[0]);
      var tail := w[1..] + Zeros(33 - |w|);
      BitsThatEmptyTheRegister(Step(x), w[1..]);
      GeneratorEndsInOne();
      assert Step(x)[31] == x[0] && !tail[31];
      if Step(x) == tail {
        assert !x[0] && x[1..] + [false] == tail;
        assert forall i :: 1 <= i < 32 ==> r[i] == (x[1..] + [false])[i - 1] == tail[i - 1];
        assert r == w + Zeros(32 - |w|);
      }
      if r == w + Zeros(32 - |w|) {
        assert x[1..] + [false] == tail;
      }
    }
  }

  ghost predicate AllClear(e: seq<bool>) {
    forall i :: 0 <= i < |e| ==> !e[i]
  }

  /** Correct bits neither fill an empty register nor empty a filled one. */
  lemma {:induction false} CorrectBitsChangeNothing(r: seq<bool>, e: seq<bool>)
    requires |r| == 32 && AllClear(e)
    ensures FeedBits(r, e) == Zeros(32) <==> r == Zeros(32)
    decreases e
  {
    if e == [] {
    } else {
      assert AddBit(r, false) == r;
      BitsThatEmptyTheRegister(r, [false]);
      assert FeedBits(r, [false]) == Step(r);
      assert [false] + Zeros(31) == Zeros(32);
      CorrectBitsChangeNothing(Step(r), e[1..]);
    }
  }

  /** Two messages of one length whose bits agree outside `n` consecutive positions. */
  ghost predicate AgreeOutside(a: seq<bv8>, b: seq<bv8>, start: nat, n: nat) {
    && |a| == |b|
    && forall i :: 0 <= i < 8 * |a| && !(start <= i < start + n) ==> Bits(a)[i] == Bits(b)[i]
  }

  lemma BurstAlone(e: seq<bool>, start: nat, n: nat)
    requires start + n <= |e| && AllClear(e[..start]) && AllClear(e[start + n..])
    ensures FeedBits(Zeros(32), e) == Zeros(32) <==> FeedBits(Zeros(32), e[start..start + n]) == Zeros(32)
  {
    var head, burst, tail := e[..start], e[start..start + n], e[start + n..];
    assert e == head + (burst + tail);
    FeedBitsAppends(Zeros(32), head, burst + tail);
    CorrectBitsChangeNothing(Zeros(32), head);
    FeedBitsAppends(Zeros(32), burst, tail);
    CorrectBitsChangeNothing(FeedBits(Zeros(32), burst), tail);
  }

  lemma OnlyTheBurstMatters(a: seq<bv8>, b: seq<bv8>, start: nat, n: nat)
    requires AgreeOutside(a, b, start, n) && start + n <= 8 * |a|
    ensures Crc(a) == Crc(b) <==>
            FeedBits(Zeros(32), Xors(Bits(a), Bits(b))[start..start + n]) == Zeros(32)
  {
    hide FeedBits, Bits, Crc;
    var e := Xors(Bits(a), Bits(b));
    DetectionDependsOnlyOnTheError(a, b);
    BurstAlone(e, start, n);
  }

  lemma ByteBitsIsInjective(a: bv8, b: bv8)
    requires ByteBits(a) == ByteBits(b)
    ensures a == b
  {
    ByteEndsAt8(a);
    ByteEndsAt8(b);
    WordIsItsBits(a as bv32, b as bv32, 8);
  }

  lemma {:induction false} BitsIsInjective(a: seq<bv8>, b: seq<bv8>)
    requires Bits(a) == Bits(b)
    ensures a == b
  {
    if a == [] {
    } else {
      assert Bits(a)[..8] == ByteBits(a[0]) && Bits(b)[..8] == ByteBits(b[0]);
      assert Bits(a)[8..] == Bits(a[1..]) && Bits(b)[8..] == Bits(b[1..]);
      ByteBitsIsInjective(a[0], b[0]);
      BitsIsInjective(a[1..], b[1..]);
      assert a == [a[0]] + a[1..] && b == [b[0]] + b[1..];
    }
  }

  lemma BurstOfZeros(x: seq<bool>, y: seq<bool>, lo: nat, n: nat)
    requires |x| == |y| && lo + n <= |x| && n <= 32
    requires forall i :: 0 <= i < |x| && !(lo <= i < lo + n) ==> x[i] == y[i]
    requires FeedBits(Zeros(32), Xors(x, y)[lo..lo + n]) == Zeros(32)
    ensures x == y
  {
    var burst := Xors(x, y)[lo..lo + n];
    BitsThatEmptyTheRegister(Zeros(32), burst);
    forall i | lo <= i < lo + n
      ensures x[i] == y[i]
    {
      assert Xors(x, y)[i] == burst[i - lo] == (burst + Zeros(32 - n))[i - lo] == Zeros(32)[i - lo];
    }
  }

  /** Every burst of at most 32 bits, at any bit offset, changes the CRC. */
  lemma BurstIsDetected(a: seq<bv8>, b: seq<bv8>, start: nat)
    requires AgreeOutside(a, b, start, 32)
    ensures Crc(a) == Crc(b) <==> a == b
  {
    if Crc(a) == Crc(b) {
      var length := 8 * |a|;
      var lo := if start < length then start else length;
      var n := if start + 32 < length then 32 else length - lo;
      OnlyTheBurstMatters(a, b, lo, n);
      BurstOfZeros(Bits(a), Bits(b), lo, n);
      BitsIsInjective(a, b);
    }
  }

  /** Thirty-two is the exact limit, and one pattern marks it: a burst of 33 bits that starts
      with a wrong bit escapes exactly when the 32 bits after it spell the generator. */
  lemma BurstOf33EscapesOnlyAsTheGenerator(a: seq<bv8>, b: seq<bv8>, start: nat)
    requires AgreeOutside(a, b, start, 33) && start + 33 <= 8 * |a|
    requires Bits(a)[start] != Bits(b)[start]
    ensures Crc(a) == Crc(b) <==>
            Xors(Bits(a), Bits(b))[start + 1..start + 33] == Generator()
  {
    var e := Xors(Bits(a), Bits(b));
    OnlyTheBurstMatters(a, b, start, 33);
    assert e[start + 1..start + 33] == e[start..start + 33][1..];
    LeadingErrorLoadsTheGenerator(e[start..start + 33]);
  }

  lemma LeadingErrorLoadsTheGenerator(burst: seq<bool>)
    requires |burst| == 33 && burst[0]
    ensures FeedBits(Zeros(32), burst) == Zeros(32) <==> burst[1..] == Generator()
  {
    var r := Step(AddBit(Zeros(32), true));
    assert r == Generator();
    BitsThatEmptyTheRegister(Generator(), burst[1..]);
    assert burst[1..] + Zeros(0) == burst[1..];
  }

  /** `a` and `b` have the same bytes except four consecutive ones. */
  ghost predicate DifferInFourBytes(a: seq<bv8>, b: seq<bv8>, at: nat) {
    && |a| == |b|
    && forall i :: 0 <= i < |a| && !(at <= i < at + 4) ==> a[i] == b[i]
  }

  lemma {:induction false} BitsAppend(a: seq<bv8>, b: seq<bv8>)
    ensures Bits(a + b) == Bits(a) + Bits(b)
    decreases a
  {
    if a == [] {
      assert a + b == b;
    } else {
      assert (a + b)[1..] == a[1..] + b;
      BitsAppend(a[1..], b);
    }
  }

  lemma SameAround(p: seq<bool>, x: seq<bool>, y: seq<bool>, t: seq<bool>)
    requires |x| == |y|
    ensures forall i :: 0 <= i < |p| + |x| + |t| && !(|p| <= i < |p| + |x|) ==> (p + (x + t))[i] == (p + (y + t))[i]
  {}

  lemma FourBytesAreOneBurst(head: seq<bv8>, v: seq<bv8>, w: seq<bv8>, tail: seq<bv8>)
    requires |v| == |w| <= 4
    ensures AgreeOutside(head + (v + tail), head + (w + tail), 8 * |head|, 32)
  {
    var a, b := head + (v + tail), head + (w + tail);
    var p, x, y, t := Bits(head), Bits(v), Bits(w), Bits(tail);
    assert Bits(a) == p + (x + t) by { BitsAppend(head, v + tail); BitsAppend(v, tail); }
    assert Bits(b) == p + (y + t) by { BitsAppend(head, w + tail); BitsAppend(w, tail); }
    SameAround(p, x, y, t);
  }

  lemma FourBytesAreDetected(a: seq<bv8>, b: seq<bv8>, at: nat)
    requires DifferInFourBytes(a, b, at)
    ensures Crc(a) == Crc(b) <==> a == b
  {
    var lo := if at < |a| then at else |a|;
    var hi := if at + 4 < |a| then at + 4 else |a|;
    assert a == a[..lo] + (a[lo..hi] + a[hi..]);
    assert b == a[..lo] + (b[lo..hi] + a[hi..]);
    FourBytesAreOneBurst(a[..lo], a[lo..hi], b[lo..hi], a[hi..]);
    BurstIsDetected(a, b, 8 * lo);
  }

  // ----- The error as bytes -----

  function ByteXor(x: bv8, y: bv8): bv8 { x ^ y }

  /** Which bits of which bytes differ. */
  function Differences(a: seq<bv8>, b: seq<bv8>): (d: seq<bv8>)
    requires |a| == |b|
    ensures |d| == |a| && forall i :: 0 <= i < |a| ==> d[i] == ByteXor(a[i], b[i])
  {
    seq(|a|, i requires 0 <= i < |a| => ByteXor(a[i], b[i]))
  }

  lemma WidenedXor(x: bv8, y: bv8)
    ensures ByteXor(x, y) as bv32 == Xor(x as bv32, y as bv32)
  {}

  lemma ExchangeXors(c: bv32, d: bv32, x: bv32, y: bv32)
    ensures Xor(Xor(c, d), Xor(x, y)) == Xor(Xor(c, x), Xor(d, y))
  {
    hide Xor;
    XorAssociates(c, d, Xor(x, y));
    XorAssociates(d, x, y);
    XorCommutes(d, x);
    XorAssociates(x, d, y);
    XorAssociates(c, x, Xor(d, y));
  }

  lemma ByteStepIsLinear(c: bv32, d: bv32, x: bv8, y: bv8)
    ensures ByteStep(Xor(c, d), ByteXor(x, y)) == Xor(ByteStep(c, x), ByteStep(d, y))
  {
    hide Xor, ByteXor, ShiftN;
    WidenedXor(x, y);
    ExchangeXors(c, d, x as bv32, y as bv32);
    ShiftNIsLinear(Xor(c, x as bv32), Xor(d, y as bv32), 8);
  }

  lemma {:induction false} FeedIsLinear(c: bv32, d: bv32, a: seq<bv8>, b: seq<bv8>)
    requires |a| == |b|
    ensures Feed(Xor(c, d), Differences(a, b)) == Xor(Feed(c, a), Feed(d, b))
    decreases a
  {
    hide Xor, ByteXor, ByteStep;
    if a == [] {
    } else {
      assert Differences(a, b)[1..] == Differences(a[1..], b[1..]);
      ByteStepIsLinear(c, d, a[0], b[0]);
      FeedIsLinear(ByteStep(c, a[0]), ByteStep(d, b[0]), a[1..], b[1..]);
    }
  }

  /** How two CRCs differ is told by how the messages differ. */
  lemma CrcsDifferAsTheErrorFeeds(a: seq<bv8>, b: seq<bv8>)
    requires |a| == |b|
    ensures Xor(Crc(a), Crc(b)) == Feed(0, Differences(a, b))
  {
    hide Xor, Feed;
    FeedIsLinear(ALL_ONES, ALL_ONES, a, b);
    ExchangeXors(Feed(ALL_ONES, a), ALL_ONES, Feed(ALL_ONES, b), ALL_ONES);
    XorWithItself(Feed(ALL_ONES, a), Feed(ALL_ONES, b));
  }

  lemma XorWithItself(x: bv32, y: bv32)
    ensures Xor(ALL_ONES, ALL_ONES) == 0 && Xor(Xor(x, y), 0) == Xor(x, y)
  {}

  // ----- What the inversions are for -----

  /** The register remembers where it started, whatever is fed to it. */
  lemma RegisterRemembers(r: seq<bool>, s: seq<bool>, bits: seq<bool>)
    requires |r| == |s| == 32
    ensures FeedBits(r, bits) == FeedBits(s, bits) <==> r == s
  {
    hide FeedBits;
    FeedBitsIsLinear(r, s, bits, bits);
    CorrectBitsChangeNothing(Xors(r, s), Xors(bits, bits));
    SameBits(FeedBits(r, bits), FeedBits(s, bits));
    SameBits(r, s);
  }

  lemma SameBits(v: seq<bool>, w: seq<bool>)
    requires |v| == |w| == 32
    ensures Xors(v, w) == Zeros(32) <==> v == w
  {
    if Xors(v, w) == Zeros(32) {
      forall i | 0 <= i < 32
        ensures v[i] == w[i]
      {
        assert !Xors(v, w)[i];
      }
    }
  }

  /** A zero byte in front is noticed, which it would not be by a register that starts empty. */
  lemma LeadingZeroIsNoticed(message: seq<bv8>)
    ensures Crc([0] + message) != Crc(message)
  {
    hide Feed, FeedBits, ByteStep, Xor;
    FeedFirst(ALL_ONES, 0, message);
    FeedIsFeedBits(ALL_ONES, message);
    FeedIsFeedBits(0x2DFD1072, message);
    OneZeroByte();
    RegisterRemembers(BitsOf(ALL_ONES, 32), BitsOf(0x2DFD1072, 32), Bits(message));
    NoBitsAbove32(ALL_ONES);
    NoBitsAbove32(0x2DFD1072);
    if BitsOf(ALL_ONES, 32) == BitsOf(0x2DFD1072, 32) {
      WordIsItsBits(ALL_ONES, 0x2DFD1072, 32);
    }
    CrcIsInjectiveInTheRegister(Feed(ALL_ONES, message), Feed(0x2DFD1072, message));
  }

  lemma FeedFirst(c: bv32, b: bv8, rest: seq<bv8>)
    ensures Feed(c, [b] + rest) == Feed(ByteStep(c, b), rest)
  {
    hide ByteStep;
    assert ([b] + rest)[1..] == rest;
  }

  lemma OneZeroByte()
    ensures ByteStep(ALL_ONES, 0) == 0x2DFD1072
  {}

  lemma NothingHasCrcZero()
    ensures Crc([]) == 0
  {}

  lemma NineDigits()
    ensures ByteStep(ALL_ONES, 0x31) == 0x7C231048
    ensures ByteStep(0x7C231048, 0x32) == 0xB0ACBB32
    ensures ByteStep(0xB0ACBB32, 0x33) == 0x77B79C2D
    ensures ByteStep(0x77B79C2D, 0x34) == 0x641C1F5C
    ensures ByteStep(0x641C1F5C, 0x35) == 0x340AC5E3
    ensures ByteStep(0x340AC5E3, 0x36) == 0xF68D2C9E
    ensures ByteStep(0xF68D2C9E, 0x37) == 0xAFFC9660
    ensures ByteStep(0xAFFC9660, 0x38) == 0x651F2550
    ensures ByteStep(0x651F2550, 0x39) == 0x340BC6D9
    ensures Xor(0x340BC6D9, ALL_ONES) == 0xCBF43926
  {}

  lemma FedNext(c: bv32, message: seq<bv8>, i: nat)
    requires i < |message|
    ensures Feed(c, message[i..]) == Feed(ByteStep(c, message[i]), message[i + 1..])
  {
    hide Feed;
    FeedFirst(c, message[i], message[i + 1..]);
    assert [message[i]] + message[i + 1..] == message[i..];
  }

  const DIGITS: seq<bv8> := [0x31, 0x32, 0x33, 0x34, 0x35, 0x36, 0x37, 0x38, 0x39]

  /** The check value of CRC-32: the CRC of the digits from 1 to 9. */
  lemma CheckValue()
    ensures Crc(DIGITS) == 0xCBF43926
  {
    hide Feed, ByteStep, Xor;
    NineDigits();
    assert DIGITS[0..] == DIGITS && DIGITS[9..] == [];
    FedNext(ALL_ONES, DIGITS, 0);
    FedNext(0x7C231048, DIGITS, 1);
    FedNext(0xB0ACBB32, DIGITS, 2);
    FedNext(0x77B79C2D, DIGITS, 3);
    FedNext(0x641C1F5C, DIGITS, 4);
    FedNext(0x340AC5E3, DIGITS, 5);
    FedNext(0xF68D2C9E, DIGITS, 6);
    FedNext(0xAFFC9660, DIGITS, 7);
    FedNext(0x651F2550, DIGITS, 8);
    FedNothing(0x340BC6D9);
  }

  lemma FedNothing(c: bv32)
    ensures Feed(c, []) == c
  {}
}
