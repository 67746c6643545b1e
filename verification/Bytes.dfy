/** Conversions between numbers and bytes. */
module Bytes {

  function Flag(p: bool, mask: bv8): bv8 { if p then mask else 0 }

  function Assemble(p0: bool, p1: bool, p2: bool, p3: bool, p4: bool, p5: bool, p6: bool, p7: bool): bv8 {
    Flag(p0, 1) | Flag(p1, 2) | Flag(p2, 4) | Flag(p3, 8) | Flag(p4, 16) | Flag(p5, 32) | Flag(p6, 64) | Flag(p7, 128)
  }

  function Half(n: nat): nat { n / 2 }

  predicate Odd(n: nat) { n % 2 == 1 }

  function Double(p: bool, n: nat): nat { if p then 2 * n + 1 else 2 * n }

  /** The cast to an 8-bit unsigned integer: the low eight bits of a number. */
  function Byte(n: nat): bv8 {
    var n1 := Half(n);
    var n2 := Half(n1);
    var n3 := Half(n2);
    var n4 := Half(n3);
    var n5 := Half(n4);
    var n6 := Half(n5);
    var n7 := Half(n6);
    Assemble(Odd(n), Odd(n1), Odd(n2), Odd(n3), Odd(n4), Odd(n5), Odd(n6), Odd(n7))
  }

  function Total(p0: bool, p1: bool, p2: bool, p3: bool, p4: bool, p5: bool, p6: bool, p7: bool): nat {
    Double(p0, Double(p1, Double(p2, Double(p3, Double(p4, Double(p5, Double(p6, Double(p7, 0))))))))
  }

  /** The number an 8-bit unsigned integer stands for. */
  function Value(b: bv8): nat {
    Total(b & 1 != 0, b & 2 != 0, b & 4 != 0, b & 8 != 0, b & 16 != 0, b & 32 != 0, b & 64 != 0, b & 128 != 0)
  }

  lemma AssembledBits(p0: bool, p1: bool, p2: bool, p3: bool, p4: bool, p5: bool, p6: bool, p7: bool, b: bv8)
    requires b == Assemble(p0, p1, p2, p3, p4, p5, p6, p7)
    ensures (b & 1 != 0) == p0 && (b & 2 != 0) == p1 && (b & 4 != 0) == p2 && (b & 8 != 0) == p3
    ensures (b & 16 != 0) == p4 && (b & 32 != 0) == p5 && (b & 64 != 0) == p6 && (b & 128 != 0) == p7
  {}

  lemma ReassembledByte(b: bv8)
    ensures b == Assemble(b & 1 != 0, b & 2 != 0, b & 4 != 0, b & 8 != 0,
                          b & 16 != 0, b & 32 != 0, b & 64 != 0, b & 128 != 0)
  {}

  lemma Doubled(p: bool, n: nat)
    ensures Odd(Double(p, n)) == p && Half(Double(p, n)) == n
  {}

  lemma Halved(n: nat)
    ensures Double(Odd(n), Half(n)) == n
  {}

  lemma HalvedToZero(n: nat)
    requires n < 256
    ensures Half(Half(Half(Half(Half(Half(Half(Half(n)))))))) == 0
  {}

  lemma ByteValue(n: nat)
    requires n < 256
    ensures Value(Byte(n)) == n
  {
    var n1 := Half(n);
    var n2 := Half(n1);
    var n3 := Half(n2);
    var n4 := Half(n3);
    var n5 := Half(n4);
    var n6 := Half(n5);
    var n7 := Half(n6);
    AssembledBits(Odd(n), Odd(n1), Odd(n2), Odd(n3), Odd(n4), Odd(n5), Odd(n6), Odd(n7), Byte(n));
    HalvedToZero(n);
    hide Odd, Half, Double, Assemble;
    Halved(n);
    Halved(n1);
    Halved(n2);
    Halved(n3);
    Halved(n4);
    Halved(n5);
    Halved(n6);
    Halved(n7);
  }

  lemma ByteOfTotal(p0: bool, p1: bool, p2: bool, p3: bool, p4: bool, p5: bool, p6: bool, p7: bool)
    ensures Byte(Total(p0, p1, p2, p3, p4, p5, p6, p7)) == Assemble(p0, p1, p2, p3, p4, p5, p6, p7)
  {
    hide Odd, Half, Double, Assemble;
    var n7 := Double(p7, 0);
    var n6 := Double(p6, n7);
    var n5 := Double(p5, n6);
    var n4 := Double(p4, n5);
    var n3 := Double(p3, n4);
    var n2 := Double(p2, n3);
    var n1 := Double(p1, n2);
    Doubled(p7, 0);
    Doubled(p6, n7);
    Doubled(p5, n6);
    Doubled(p4, n5);
    Doubled(p3, n4);
    Doubled(p2, n3);
    Doubled(p1, n2);
    Doubled(p0, n1);
  }

  lemma ValueByte(b: bv8)
    ensures Byte(Value(b)) == b
  {
    ReassembledByte(b);
    ByteOfTotal(b & 1 != 0, b & 2 != 0, b & 4 != 0, b & 8 != 0, b & 16 != 0, b & 32 != 0, b & 64 != 0, b & 128 != 0);
    hide Total, Assemble, Byte;
  }

  /** What each bit is worth. */
  lemma PlaceValues()
    ensures Value(0) == 0 && Value(1) == 1 && Value(2) == 2 && Value(4) == 4 && Value(8) == 8
    ensures Value(16) == 16 && Value(32) == 32 && Value(64) == 64 && Value(128) == 128 && Value(255) == 255
  {}

  lemma ValueBound(b: bv8)
    ensures Value(b) < 256
  {}
}
