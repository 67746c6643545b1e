/** Where everything lies in an encoded header and in an encoded message. */
module Layouts {
  import opened LittleEndian
  import Bytes
  import PatchHeader
  import SystemMessages

  // ----- Numbers -----

  /** Numbers are written lowest byte first. */
  lemma LowestByteFirst(n: nat, k: nat)
    ensures k > 0 ==> Bytes.Value(Encode(n, k)[0]) == n % 0x100
    ensures k > 1 ==> Bytes.Value(Encode(n, k)[1]) == n / 0x100 % 0x100
    ensures k > 2 ==> Bytes.Value(Encode(n, k)[2]) == n / 0x10000 % 0x100
    ensures k > 3 ==> Bytes.Value(Encode(n, k)[3]) == n / 0x1000000 % 0x100
  {
    hide Encode, Bytes.Byte, Bytes.Value;
    Quarters(n);
    forall i | 0 <= i < 4 && i < k
      ensures Bytes.Value(Encode(n, k)[i]) == Shifted(n, i) % 0x100
    {
      EncodeIsLowBytes(n, k, i);
      Bytes.ByteValue(Shifted(n, i) % 0x100);
    }
  }

  lemma Quarters(n: nat)
    ensures Shifted(n, 0) == n && Shifted(n, 1) == n / 0x100
    ensures Shifted(n, 2) == n / 0x10000 && Shifted(n, 3) == n / 0x1000000
  {}

  lemma LowestByteRead(b: seq<bv8>)
    requires b != []
    ensures Decode(b) == Bytes.Value(b[0]) + 0x100 * Decode(b[1..]) && Decode([]) == 0
  {
    hide Bytes.Value;
  }

  // ----- The patch header -----

  /** The fields of an encoded header, by their offsets. */
  lemma HeaderLayout(h: PatchHeader.Header)
    ensures var b := PatchHeader.EncodeHeader(h);
            && |b| == 40 && b[..4] == [0x53, 0x56, 0x50, 0x31]
            && Decode(b[4..8]) == h.version && Decode(b[8..12]) == h.headerSize && Decode(b[12..20]) == h.fileId
            && Decode(b[20..24]) == h.totalPatches && Decode(b[24..28]) == h.patchIndex
            && Decode(b[28..32]) == h.payloadSize && Decode(b[36..40]) == h.payloadCrc
  {
    hide PatchHeader.ComputeCrc, Decode, Encode, PatchHeader.Serialize;
    var b := PatchHeader.EncodeHeader(h);
    assert b[..40] == b;
    PatchHeader.FieldsOfSerialized(h, PatchHeader.ComputeCrc(h), b);
  }

  /** What is taken from an accepted header comes from the same places, and only version 1 with 40 bytes
      is accepted. */
  lemma HeaderRead(data: seq<bv8>, h: PatchHeader.Header)
    requires PatchHeader.Deserialize(data) == PatchHeader.Ok(h)
    ensures |data| >= 40 && data[..4] == [0x53, 0x56, 0x50, 0x31] && h.version == 1 && h.headerSize == 40
    ensures Decode(data[4..8]) == 1 && Decode(data[8..12]) == 40 && Decode(data[12..20]) == h.fileId
    ensures Decode(data[20..24]) == h.totalPatches && Decode(data[24..28]) == h.patchIndex
    ensures Decode(data[28..32]) == h.payloadSize && Decode(data[32..36]) == h.headerCrc
    ensures Decode(data[36..40]) == h.payloadCrc
  {
    hide PatchHeader.ComputeCrc, Decode;
  }

  // ----- System messages -----

  /** The tag of a well-formed message, and where its fields lie behind it. */
  lemma MessageLayout(m: SystemMessages.Message)
    requires SystemMessages.WellFormed(m)
    ensures var b := SystemMessages.EncodeMessage(m);
            match m.payload
            case QueueSizeUpdate(size) => |b| == 6 && b[..2] == [1, 0] && Decode(b[2..6]) == size
            case FileMeta(id, name, size, total, hash) =>
              && |b| == 58 + |name| && b[..2] == [2, 0] && Decode(b[2..10]) == id && Decode(b[10..14]) == |name|
              && b[14..14 + |name|] == name && Decode(b[14 + |name|..22 + |name|]) == size
              && Decode(b[22 + |name|..26 + |name|]) == total && b[26 + |name|..] == hash
            case FilePatchMap(id, index) =>
              |b| == 14 && b[..2] == [3, 0] && Decode(b[2..10]) == id && Decode(b[10..14]) == index
            case Control(command, seconds) =>
              |b| == 7 && b[..2] == [4, 0] && b[2] == command && Decode(b[3..7]) == seconds
  {
    hide Encode, Decode, Bound;
    var b := SystemMessages.EncodeMessage(m);
    Tags();
    Widths();
    match m.payload
    case QueueSizeUpdate(size) =>
      Taken4(b, 2, size);
    case FileMeta(id, name, size, total, hash) =>
      FileMetaPlaces(b, m.tag, id, name, size, total, hash);
    case FilePatchMap(id, index) =>
      assert b == Encode(m.tag, 2) + Encode(id, 8) + Encode(index, 4);
      Taken8(b, 2, id);
      Taken4(b, 10, index);
    case Control(command, seconds) =>
      assert b == Encode(m.tag, 2) + [command] + Encode(seconds, 4);
      Taken4(b, 3, seconds);
  }

  lemma Tags()
    ensures Encode(1, 2) == [1, 0] && Encode(2, 2) == [2, 0] && Encode(3, 2) == [3, 0] && Encode(4, 2) == [4, 0]
  {
    hide Bytes.Byte, Bytes.Value;
    SmallBytes();
  }

  lemma SmallBytes()
    ensures Bytes.Byte(0) == 0 && Bytes.Byte(1) == 1 && Bytes.Byte(2) == 2 && Bytes.Byte(3) == 3 && Bytes.Byte(4) == 4
  {
    hide Bytes.Byte;
    Bytes.ValueByte(0);
    Bytes.ValueByte(1);
    Bytes.ValueByte(2);
    Bytes.ValueByte(3);
    Bytes.ValueByte(4);
  }

  lemma Taken4(b: seq<bv8>, at: nat, v: U32)
    requires at + 4 <= |b| && b[at..at + 4] == Encode(v, 4)
    ensures Decode(b[at..at + 4]) == v
  {
    hide Encode, Decode;
    Widths();
    DecodeEncode(v, 4);
  }

  lemma Taken8(b: seq<bv8>, at: nat, v: U64)
    requires at + 8 <= |b| && b[at..at + 8] == Encode(v, 8)
    ensures Decode(b[at..at + 8]) == v
  {
    hide Encode, Decode;
    Widths();
    DecodeEncode(v, 8);
  }

  lemma FileMetaPlaces(
      b: seq<bv8>, tag: U16, id: U64, name: seq<bv8>, size: U64, total: U32, hash: SystemMessages.Hash)
    requires |name| < 0x1_0000_0000
    requires b == SystemMessages.EncodeMessage(
                    SystemMessages.Message(tag, SystemMessages.FileMeta(id, name, size, total, hash)))
    ensures |b| == 58 + |name| && b[..2] == Encode(tag, 2)
    ensures Decode(b[2..10]) == id && Decode(b[10..14]) == |name| && b[14..14 + |name|] == name
    ensures Decode(b[14 + |name|..22 + |name|]) == size && Decode(b[22 + |name|..26 + |name|]) == total
    ensures b[26 + |name|..] == hash
  {
    hide Encode, Decode, Bound;
    assert b == Encode(tag, 2) + Encode(id, 8) + Encode(|name|, 4) + name + Encode(size, 8) + Encode(total, 4) + hash;
    Taken8(b, 2, id);
    Taken4(b, 10, |name|);
    Taken8(b, 14 + |name|, size);
    Taken4(b, 22 + |name|, total);
  }
}
