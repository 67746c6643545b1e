/** Little-endian numbers, and the reader and writer built on them. */
module LittleEndian {
  import Bytes

  type U16 = n: nat | n < 0x1_0000
  type U32 = n: nat | n < 0x1_0000_0000
  type U64 = n: nat | n < 0x1_0000_0000_0000_0000

  /** What comes off the front of the data, and what is left; or the data is too short. */
  datatype Taken<T> = Taken(value: T, rest: seq<bv8>) | Short

  // ----- Specification -----

  function Shifted(n: nat, i: nat): nat { if i == 0 then n else Shifted(n / 256, i - 1) }

  function Raised(v: nat, i: nat): nat { if i == 0 then v else 256 * Raised(v, i - 1) }

  /** One more than the greatest number of `k` bytes. */
  function Bound(k: nat): (b: nat)
    ensures b > 0
  {
    if k == 0 then 1 else 256 * Bound(k - 1)
  }

  /** The low `k` bytes of a number, lowest first. */
  function Encode(n: nat, k: nat): (b: seq<bv8>)
    ensures |b| == k
    decreases k
  {
    if k == 0 then [] else [Bytes.Byte(n % 256)] + Encode(n / 256, k - 1)
  }

  function Decode(b: seq<bv8>): (n: nat)
    ensures n < Bound(|b|)
    decreases b
  {
    if b == [] then 0
    else
      Bytes.ValueBound(b[0]);
      Bytes.Value(b[0]) + 256 * Decode(b[1..])
  }

  lemma {:induction false} DecodeEncode(n: nat, k: nat)
    requires n < Bound(k)
    ensures Decode(Encode(n, k)) == n
    decreases k
  {
    hide Bytes.Byte, Bytes.Value;
    if k == 0 {
    } else {
      DecodeEncode(n / 256, k - 1);
      Bytes.ByteValue(n % 256);
      assert Encode(n, k)[1..] == Encode(n / 256, k - 1);
    }
  }

  lemma {:induction false} EncodeDecode(b: seq<bv8>)
    ensures Encode(Decode(b), |b|) == b
    decreases b
  {
    hide Bytes.Byte, Bytes.Value, Bound;
    if b == [] {
    } else {
      EncodeDecode(b[1..]);
      Bytes.ValueByte(b[0]);
      Bytes.ValueBound(b[0]);
      assert Decode(b) % 256 == Bytes.Value(b[0]) && Decode(b) / 256 == Decode(b[1..]);
    }
  }

  lemma {:induction false} EncodeIsLowBytes(n: nat, k: nat, i: nat)
    requires i < k
    ensures Encode(n, k)[i] == Bytes.Byte(Shifted(n, i) % 256)
    decreases i
  {
    hide Bytes.Byte;
    if i == 0 {
    } else {
      EncodeIsLowBytes(n / 256, k - 1, i - 1);
    }
  }

  lemma {:induction false} DecodeOneMore(b: seq<bv8>, c: bv8)
    ensures Decode(b + [c]) == Decode(b) + Raised(Bytes.Value(c), |b|)
    decreases b
  {
    hide Bytes.Value;
    if b == [] {
      assert [c][1..] == [];
    } else {
      DecodeOneMore(b[1..], c);
      assert (b + [c])[1..] == b[1..] + [c];
    }
  }

  function TakeBytes(s: seq<bv8>, n: nat): Taken<seq<bv8>> {
    if |s| < n then Short else Taken(s[..n], s[n..])
  }

  function TakeInt(s: seq<bv8>, k: nat): (t: Taken<nat>)
    ensures t.Taken? ==> t.value < Bound(k)
  {
    if |s| < k then Short else Taken(Decode(s[..k]), s[k..])
  }

  lemma TakeBytesIff(s: seq<bv8>, n: nat, b: seq<bv8>, rest: seq<bv8>)
    ensures TakeBytes(s, n) == Taken(b, rest) <==> |b| == n && s == b + rest
  {}

  /** Taking a number off the front is the inverse of putting it there. */
  lemma TakeIntIff(s: seq<bv8>, k: nat, v: nat, rest: seq<bv8>)
    ensures TakeInt(s, k) == Taken(v, rest) <==> v < Bound(k) && s == Encode(v, k) + rest
  {
    hide Encode, Decode, Bound;
    if |s| >= k {
      EncodeDecode(s[..k]);
      assert s == s[..k] + s[k..];
    }
    if v < Bound(k) && s == Encode(v, k) + rest {
      DecodeEncode(v, k);
      assert s[..k] == Encode(v, k) && s[k..] == rest;
    }
  }

  lemma Widths()
    ensures Bound(2) == 0x1_0000 && Bound(4) == 0x1_0000_0000 && Bound(8) == 0x1_0000_0000_0000_0000
  {}

  // ----- Arrays and buffers -----

  method ToArray(value: nat, width: nat) returns (out: array<bv8>)
    ensures fresh(out) && out[..] == Encode(value, width)
  {
    hide Encode, Bytes.Byte;
    out := new bv8[width];
    for i := 0 to width
      invariant forall j :: 0 <= j < i ==> out[j] == Encode(value, width)[j]
    {
      EncodeIsLowBytes(value, width, i);
      out[i] := Bytes.Byte(Shifted(value, i) % 256);
    }
  }

  /** Writes where the caller has made sure of the room. */
  method WriteAt(value: nat, width: nat, out: array<bv8>, offset: nat)
    requires offset + width <= out.Length
    modifies out
    ensures out[..offset + width] == old(out[..offset]) + Encode(value, width)
    ensures out[offset + width..] == old(out[offset + width..])
  {
    hide Encode, Bytes.Byte;
    for i := 0 to width
      invariant forall j :: 0 <= j < out.Length ==>
                  out[j] == if offset <= j < offset + i then Encode(value, width)[j - offset] else old(out[j])
    {
      EncodeIsLowBytes(value, width, i);
      out[offset + i] := Bytes.Byte(Shifted(value, i) % 256);
    }
  }

  /** Writes nothing if the buffer is too small. */
  method WriteChecked(value: nat, width: nat, out: array<bv8>, offset: nat) returns (ok: bool)
    modifies out
    ensures ok <==> offset + width <= out.Length
    ensures ok ==> out[..offset + width] == old(out[..offset]) + Encode(value, width)
                   && out[offset + width..] == old(out[offset + width..])
    ensures !ok ==> out[..] == old(out[..])
  {
    if out.Length < offset + width {
      return false;
    }
    WriteAt(value, width, out, offset);
    ok := true;
  }

  /** Bytes overlap nowhere, so joining them by `or` is adding them. */
  method ReadAt(data: seq<bv8>, width: nat, offset: nat) returns (t: Taken<nat>)
    ensures |data| < offset ==> t == Short
    ensures offset <= |data| ==> t == TakeInt(data[offset..], width)
  {
    hide Bytes.Value, Raised, Bound;
    if |data| < offset + width {
      return Short;
    }
    var value := 0;
    for i := 0 to width
      invariant value == Decode(data[offset..offset + i])
    {
      DecodeOneMore(data[offset..offset + i], data[offset + i]);
      assert data[offset..offset + i + 1] == data[offset..offset + i] + [data[offset + i]];
      value := value + Raised(Bytes.Value(data[offset + i]), i);
    }
    assert data[offset..offset + width] == data[offset..][..width];
    t := Taken(value, data[offset + width..]);
  }

  class ByteReader {
    const data: seq<bv8>
    var offset: nat

    constructor (data: seq<bv8>)
      ensures this.data == data && Valid() && Rest() == data
    {
      this.data, offset := data, 0;
    }

    ghost predicate Valid()
      reads this
    {
      offset <= |data|
    }

    ghost function Rest(): seq<bv8>
      reads this
      requires Valid()
    {
      data[offset..]
    }

    method Read(width: nat) returns (t: Taken<nat>)
      requires Valid()
      modifies this
      ensures Valid()
      ensures t == TakeInt(old(Rest()), width) && (t.Taken? ==> t.rest == Rest())
    {
      t := ReadAt(data, width, offset);
      if t.Taken? {
        offset := offset + width;
      }
    }

    method ReadBytes(length: nat) returns (t: Taken<seq<bv8>>)
      requires Valid()
      modifies this
      ensures Valid()
      ensures t == TakeBytes(old(Rest()), length) && (t.Taken? ==> t.rest == Rest())
    {
      if |data| - offset < length {
        return Short;
      }
      var bytes := data[offset..offset + length];
      assert bytes == data[offset..][..length];
      offset := offset + length;
      t := Taken(bytes, data[offset..]);
    }
  }

  class ByteWriter {
    var buffer: seq<bv8>

    constructor ()
      ensures buffer == []
    {
      buffer := [];
    }

    method Write(value: nat, width: nat)
      modifies this
      ensures buffer == old(buffer) + Encode(value, width)
    {
      var bytes := ToArray(value, width);
      buffer := buffer + bytes[..];
    }

    method WriteBytes(bytes: seq<bv8>)
      modifies this
      ensures buffer == old(buffer) + bytes
    {
      buffer := buffer + bytes;
    }
  }
}
