/** The 40-byte header in front of every patch. */
module PatchHeader {
  import opened LittleEndian
  import Bytes
  import Crc32
  import ErrorDetection

  datatype Header = Header(
    version: U32, headerSize: U32, fileId: U64, totalPatches: U32, patchIndex: U32, payloadSize: U32,
    headerCrc: U32, payloadCrc: U32)

  datatype Error = InsufficientData | InvalidMagic | UnsupportedVersion | UnexpectedSize | CrcMismatch

  datatype Result = Ok(header: Header) | Err(error: Error)

  const MAGIC: seq<bv8> := [0x53, 0x56, 0x50, 0x31]
  const VERSION: U32 := 1
  const ENCODED_SIZE: nat := 40
  const CRC_AT: nat := 32

  // ----- A CRC as a number -----

  function ByteOf(x: bv32, i: nat): bv8
    requires i < 4
  {
    if i == 0 then (x & 0xFF) as bv8
    else if i == 1 then ((x >> 8) & 0xFF) as bv8
    else if i == 2 then ((x >> 16) & 0xFF) as bv8
    else ((x >> 24) & 0xFF) as bv8
  }

  function WordBytes(x: bv32): (b: seq<bv8>)
    ensures |b| == 4
  {
    [ByteOf(x, 0), ByteOf(x, 1), ByteOf(x, 2), ByteOf(x, 3)]
  }

  function Number(x: bv32): U32 {
    Widths();
    Decode(WordBytes(x))
  }

  lemma SameNumberSameWord(x: bv32, y: bv32)
    requires Number(x) == Number(y)
    ensures x == y
  {
    hide Encode, Decode, ByteOf, Bound;
    EncodeDecode(WordBytes(x));
    EncodeDecode(WordBytes(y));
    assert WordBytes(x)[0] == WordBytes(y)[0] && WordBytes(x)[1] == WordBytes(y)[1];
    assert WordBytes(x)[2] == WordBytes(y)[2] && WordBytes(x)[3] == WordBytes(y)[3];
    SameBytesSameWord(x, y);
  }

  lemma SameBytesSameWord(x: bv32, y: bv32)
    requires ByteOf(x, 0) == ByteOf(y, 0) && ByteOf(x, 1) == ByteOf(y, 1)
    requires ByteOf(x, 2) == ByteOf(y, 2) && ByteOf(x, 3) == ByteOf(y, 3)
    ensures x == y
  {}

  // ----- Specification -----

  /** The encoded header with `crc` in its CRC field. */
  function Serialize(h: Header, crc: U32): (b: seq<bv8>)
    ensures |b| == ENCODED_SIZE
  {
    MAGIC + Encode(h.version, 4) + Encode(h.headerSize, 4) + Encode(h.fileId, 8) + Encode(h.totalPatches, 4)
    + Encode(h.patchIndex, 4) + Encode(h.payloadSize, 4) + Encode(crc, 4) + Encode(h.payloadCrc, 4)
  }

  /** The CRC of the header with a zero in place of its CRC. */
  function ComputeCrc(h: Header): U32 {
    Number(Crc32.Crc(Serialize(h, 0)))
  }

  function EncodeHeader(h: Header): seq<bv8> {
    Serialize(h, ComputeCrc(h))
  }

  function U32At(data: seq<bv8>, at: nat): U32
    requires at + 4 <= |data|
  {
    Widths();
    Decode(data[at..at + 4])
  }

  function U64At(data: seq<bv8>, at: nat): U64
    requires at + 8 <= |data|
  {
    Widths();
    Decode(data[at..at + 8])
  }

  function Fields(data: seq<bv8>): Header
    requires |data| >= ENCODED_SIZE
  {
    Header(U32At(data, 4), U32At(data, 8), U64At(data, 12), U32At(data, 20), U32At(data, 24), U32At(data, 28),
           U32At(data, CRC_AT), U32At(data, 36))
  }

  predicate Supported(h: Header) { h.version == VERSION && h.headerSize == ENCODED_SIZE }

  function Deserialize(data: seq<bv8>): Result {
    if |data| < ENCODED_SIZE then Err(InsufficientData)
    else if data[..4] != MAGIC then Err(InvalidMagic)
    else
      var h := Fields(data);
      if h.version != VERSION then Err(UnsupportedVersion)
      else if h.headerSize != ENCODED_SIZE then Err(UnexpectedSize)
      else if ComputeCrc(h) != h.headerCrc then Err(CrcMismatch)
      else Ok(h)
  }

  // ----- The coders -----

  method SerializeHeader(h: Header, includeHeaderCrc: bool) returns (out: array<bv8>)
    ensures fresh(out) && out[..] == Serialize(h, if includeHeaderCrc then h.headerCrc else 0)
  {
    hide Encode;
    out := new bv8[ENCODED_SIZE](i => 0);
    out[0], out[1], out[2], out[3] := MAGIC[0], MAGIC[1], MAGIC[2], MAGIC[3];
    assert out[..4] == MAGIC;
    WriteAt(h.version, 4, out, 4);
    WriteAt(h.headerSize, 4, out, 8);
    WriteAt(h.fileId, 8, out, 12);
    WriteAt(h.totalPatches, 4, out, 20);
    WriteAt(h.patchIndex, 4, out, 24);
    WriteAt(h.payloadSize, 4, out, 28);
    var headerCrc := if includeHeaderCrc then h.headerCrc else 0;
    WriteAt(headerCrc, 4, out, 32);
    WriteAt(h.payloadCrc, 4, out, 36);
    assert out[..] == out[..40];
  }

  method ComputeHeaderCrc(h: Header) returns (crc: U32)
    ensures crc == ComputeCrc(h)
  {
    var buffer := SerializeHeader(h, false);
    var word := Crc32.TableDriven(buffer[..]);
    crc := Number(word);
  }

  method EncodePatchHeader(h: Header) returns (out: array<bv8>)
    ensures out[..] == EncodeHeader(h)
  {
    out := SerializeHeader(h, true);
    var expected := ComputeHeaderCrc(h);
    if expected != h.headerCrc {
      var corrected := h.(headerCrc := expected);
      SerializeIgnoresCrcField(h, corrected, expected);
      out := SerializeHeader(corrected, true);
    }
  }

  lemma SerializeIgnoresCrcField(h: Header, h': Header, crc: U32)
    requires h' == h.(headerCrc := h'.headerCrc)
    ensures Serialize(h, crc) == Serialize(h', crc)
  {}

  /** A number that is known to be there. */
  method ReadField(data: seq<bv8>, width: nat, offset: nat) returns (value: nat)
    requires offset + width <= |data|
    ensures value == Decode(data[offset..offset + width]) < Bound(width)
  {
    hide Decode, Bound;
    var t := ReadAt(data, width, offset);
    assert data[offset..][..width] == data[offset..offset + width];
    value := t.value;
  }

  method DeserializeHeader(data: seq<bv8>) returns (r: Result)
    ensures r == Deserialize(data)
  {
    hide Decode, ComputeCrc, Bound;
    if |data| < ENCODED_SIZE {
      return Err(InsufficientData);
    }
    if data[..4] != MAGIC {
      return Err(InvalidMagic);
    }
    Widths();
    var version := ReadField(data, 4, 4);
    var headerSize := ReadField(data, 4, 8);
    var fileId := ReadField(data, 8, 12);
    var totalPatches := ReadField(data, 4, 20);
    var patchIndex := ReadField(data, 4, 24);
    var payloadSize := ReadField(data, 4, 28);
    var headerCrc := ReadField(data, 4, 32);
    var payloadCrc := ReadField(data, 4, 36);
    var h := Header(version, headerSize, fileId, totalPatches, patchIndex, payloadSize, headerCrc, payloadCrc);
    if h.version != VERSION {
      return Err(UnsupportedVersion);
    }
    if h.headerSize != ENCODED_SIZE {
      return Err(UnexpectedSize);
    }
    var expected := ComputeHeaderCrc(h);
    if expected != h.headerCrc {
      return Err(CrcMismatch);
    }
    r := Ok(h);
  }

  // ----- Reading a header is the inverse of writing one -----

  lemma Appended(a: seq<bv8>, b: seq<bv8>, whole: seq<bv8>)
    requires a + b <= whole
    ensures a <= whole && whole[|a|..|a| + |b|] == b
  {}

  lemma Number4(data: seq<bv8>, at: nat, v: U32)
    requires at + 4 <= |data| && data[at..at + 4] == Encode(v, 4)
    ensures U32At(data, at) == v
  {
    Widths();
    DecodeEncode(v, 4);
  }

  lemma Number8(data: seq<bv8>, at: nat, v: U64)
    requires at + 8 <= |data| && data[at..at + 8] == Encode(v, 8)
    ensures U64At(data, at) == v
  {
    Widths();
    DecodeEncode(v, 8);
  }

  lemma FieldsOfSerialized(h: Header, crc: U32, data: seq<bv8>)
    requires |data| >= ENCODED_SIZE && data[..ENCODED_SIZE] == Serialize(h, crc)
    ensures data[..4] == MAGIC && Fields(data) == h.(headerCrc := crc)
  {
    hide Encode, Decode, U32At, U64At;
    var p1 := MAGIC + Encode(h.version, 4);
    var p2 := p1 + Encode(h.headerSize, 4);
    var p3 := p2 + Encode(h.fileId, 8);
    var p4 := p3 + Encode(h.totalPatches, 4);
    var p5 := p4 + Encode(h.patchIndex, 4);
    var p6 := p5 + Encode(h.payloadSize, 4);
    var p7 := p6 + Encode(crc, 4);
    Appended(p7, Encode(h.payloadCrc, 4), data);
    Appended(p6, Encode(crc, 4), data);
    Appended(p5, Encode(h.payloadSize, 4), data);
    Appended(p4, Encode(h.patchIndex, 4), data);
    Appended(p3, Encode(h.totalPatches, 4), data);
    Appended(p2, Encode(h.fileId, 8), data);
    Appended(p1, Encode(h.headerSize, 4), data);
    Appended(MAGIC, Encode(h.version, 4), data);
    Number4(data, 4, h.version);
    Number4(data, 8, h.headerSize);
    Number8(data, 12, h.fileId);
    Number4(data, 20, h.totalPatches);
    Number4(data, 24, h.patchIndex);
    Number4(data, 28, h.payloadSize);
    Number4(data, CRC_AT, crc);
    Number4(data, 36, h.payloadCrc);
  }

  lemma Bytes4(data: seq<bv8>, at: nat)
    requires at + 4 <= |data|
    ensures data[..at + 4] == data[..at] + Encode(U32At(data, at), 4)
  {
    Widths();
    EncodeDecode(data[at..at + 4]);
  }

  lemma Bytes8(data: seq<bv8>, at: nat)
    requires at + 8 <= |data|
    ensures data[..at + 8] == data[..at] + Encode(U64At(data, at), 8)
  {
    Widths();
    EncodeDecode(data[at..at + 8]);
  }

  lemma SerializedFields(data: seq<bv8>)
    requires |data| >= ENCODED_SIZE && data[..4] == MAGIC
    ensures data[..ENCODED_SIZE] == Serialize(Fields(data), U32At(data, CRC_AT))
  {
    hide Encode, Decode, U32At, U64At;
    Bytes4(data, 4);
    Bytes4(data, 8);
    Bytes8(data, 12);
    Bytes4(data, 20);
    Bytes4(data, 24);
    Bytes4(data, 28);
    Bytes4(data, CRC_AT);
    Bytes4(data, 36);
  }

  /** A header is accepted exactly when its first 40 bytes are what the encoder makes of it, it has
      the supported version and size, and it carries its own CRC. */
  lemma DeserializeIsInverse(data: seq<bv8>, h: Header)
    ensures Deserialize(data) == Ok(h) <==>
              && |data| >= ENCODED_SIZE && data[..ENCODED_SIZE] == EncodeHeader(h)
              && Supported(h) && h.headerCrc == ComputeCrc(h)
  {
    hide Serialize, Fields, ComputeCrc, U32At;
    if Deserialize(data) == Ok(h) {
      SerializedFields(data);
      CrcField(data);
    }
    if |data| >= ENCODED_SIZE && data[..ENCODED_SIZE] == EncodeHeader(h) {
      FieldsOfSerialized(h, ComputeCrc(h), data);
    }
  }

  lemma CrcField(data: seq<bv8>)
    requires |data| >= ENCODED_SIZE
    ensures Fields(data).headerCrc == U32At(data, CRC_AT)
  {}

  lemma CrcIgnoresCrcField(h: Header, crc: U32)
    ensures ComputeCrc(h.(headerCrc := crc)) == ComputeCrc(h)
  {}

  /** Encoding and decoding give back the header with the right CRC, exactly when its version and
      size are the supported ones. */
  lemma HeaderRoundTrip(h: Header, rest: seq<bv8>)
    ensures Deserialize(EncodeHeader(h) + rest) == Ok(h.(headerCrc := ComputeCrc(h))) <==> Supported(h)
  {
    hide Serialize, ComputeCrc, Deserialize;
    var corrected := h.(headerCrc := ComputeCrc(h));
    var data := EncodeHeader(h) + rest;
    CrcIgnoresCrcField(h, ComputeCrc(h));
    SerializeIgnoresCrcField(h, corrected, ComputeCrc(h));
    assert data[..ENCODED_SIZE] == EncodeHeader(h);
    DeserializeIsInverse(data, corrected);
  }

  // ----- Damage -----

  /** The bytes the CRC is computed from. */
  function Blanked(data: seq<bv8>): seq<bv8>
    requires |data| == ENCODED_SIZE
  {
    data[..CRC_AT] + Encode(0, 4) + data[CRC_AT + 4..]
  }

  lemma BlankedIsSerialized(data: seq<bv8>)
    requires |data| == ENCODED_SIZE && data[..4] == MAGIC
    ensures Serialize(Fields(data), 0) == Blanked(data)
  {
    hide Encode, Decode, U32At, U64At;
    Bytes4(data, 4);
    Bytes4(data, 8);
    Bytes8(data, 12);
    Bytes4(data, 20);
    Bytes4(data, 24);
    Bytes4(data, 28);
    Bytes4(data, 36);
    assert data[36..] == Encode(U32At(data, 36), 4);
  }

  lemma AcceptedCrc(data: seq<bv8>)
    requires |data| == ENCODED_SIZE && Deserialize(data).Ok?
    ensures U32At(data, CRC_AT) == Number(Crc32.Crc(Blanked(data)))
    ensures data[CRC_AT..CRC_AT + 4] == Encode(Number(Crc32.Crc(Blanked(data))), 4)
  {
    hide Serialize, Fields, Number, Crc32.Crc, Blanked, Encode, Decode;
    BlankedIsSerialized(data);
    CrcField(data);
    EncodeDecode(data[CRC_AT..CRC_AT + 4]);
  }

  /** Damage confined to four consecutive bytes, wholly inside or wholly outside the CRC field, is
      always noticed. */
  lemma DamageIsRejected(data: seq<bv8>, damaged: seq<bv8>, at: nat)
    requires |data| == ENCODED_SIZE && Deserialize(data).Ok?
    requires ErrorDetection.DifferInFourBytes(data, damaged, at)
    requires at + 4 <= CRC_AT || at == CRC_AT || CRC_AT + 4 <= at
    ensures Deserialize(damaged).Ok? <==> damaged == data
  {
    hide Deserialize, Number, Crc32.Crc, Encode, U32At;
    if Deserialize(damaged).Ok? {
      AcceptedCrc(data);
      AcceptedCrc(damaged);
      if at == CRC_AT {
        assert Blanked(data) == Blanked(damaged);
      } else {
        assert data[CRC_AT..CRC_AT + 4] == damaged[CRC_AT..CRC_AT + 4];
        SameField(data, damaged);
        SameNumberSameWord(Crc32.Crc(Blanked(data)), Crc32.Crc(Blanked(damaged)));
        assert ErrorDetection.DifferInFourBytes(Blanked(data), Blanked(damaged), at);
        ErrorDetection.FourBytesAreDetected(Blanked(data), Blanked(damaged), at);
      }
      SameAroundCrc(data, damaged);
    }
  }

  lemma SameField(a: seq<bv8>, b: seq<bv8>)
    requires |a| == |b| == ENCODED_SIZE && a[CRC_AT..CRC_AT + 4] == b[CRC_AT..CRC_AT + 4]
    ensures U32At(a, CRC_AT) == U32At(b, CRC_AT)
  {}

  lemma SameAroundCrc(a: seq<bv8>, b: seq<bv8>)
    requires |a| == |b| == ENCODED_SIZE && Blanked(a) == Blanked(b)
    requires a[CRC_AT..CRC_AT + 4] == b[CRC_AT..CRC_AT + 4]
    ensures a == b
  {
    hide Encode;
    assert a[..CRC_AT] == Blanked(a)[..CRC_AT] && b[..CRC_AT] == Blanked(b)[..CRC_AT];
    assert a[CRC_AT + 4..] == Blanked(a)[CRC_AT + 4..] && b[CRC_AT + 4..] == Blanked(b)[CRC_AT + 4..];
    assert a == a[..CRC_AT] + a[CRC_AT..CRC_AT + 4] + a[CRC_AT + 4..];
    assert b == b[..CRC_AT] + b[CRC_AT..CRC_AT + 4] + b[CRC_AT + 4..];
  }
}
