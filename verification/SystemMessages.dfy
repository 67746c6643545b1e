/** Tagged messages of the system channel. */
module SystemMessages {
  import opened LittleEndian

  type Hash = h: seq<bv8> | |h| == 32 witness seq(32, i => 0)

  datatype Payload =
    | QueueSizeUpdate(queueSize: U32)
    | FileMeta(fileId: U64, name: seq<bv8>, originalSize: U64, totalPatches: U32, sha256: Hash)
    | FilePatchMap(mappedId: U64, patchIndex: U32)
    | Control(command: bv8, valueSeconds: U32)

  /** Nothing forces the tag to go with the payload. */
  datatype Message = Message(tag: U16, payload: Payload)

  datatype Error = OutOfRange | UnknownType

  datatype Result = Ok(message: Message) | Err(error: Error)

  const QUEUE_SIZE_UPDATE: U16 := 1
  const FILE_META: U16 := 2
  const FILE_PATCH_MAP: U16 := 3
  const CONTROL: U16 := 4

  // ----- Specification -----

  function EncodePayload(p: Payload): seq<bv8> {
    match p
    case QueueSizeUpdate(size) => Encode(size, 4)
    case FileMeta(id, name, size, total, hash) =>
      Encode(id, 8) + (Encode(|name|, 4) + (name + (Encode(size, 8) + (Encode(total, 4) + hash))))
    case FilePatchMap(id, index) => Encode(id, 8) + Encode(index, 4)
    case Control(command, seconds) => [command] + Encode(seconds, 4)
  }

  function EncodeMessage(m: Message): seq<bv8> {
    Encode(m.tag, 2) + EncodePayload(m.payload)
  }

  function TagOf(p: Payload): U16 {
    match p
    case QueueSizeUpdate(_) => QUEUE_SIZE_UPDATE
    case FileMeta(_, _, _, _, _) => FILE_META
    case FilePatchMap(_, _) => FILE_PATCH_MAP
    case Control(_, _) => CONTROL
  }

  /** The tag goes with the payload, and the length of a name fits its field. */
  predicate WellFormed(m: Message) {
    && m.tag == TagOf(m.payload)
    && (m.payload.FileMeta? ==> |m.payload.name| < 0x1_0000_0000)
  }

  function TakeU32(s: seq<bv8>): (t: Taken<U32>) {
    Widths();
    match TakeInt(s, 4) case Short => Short case Taken(v, rest) => Taken(v, rest)
  }

  function TakeU64(s: seq<bv8>): (t: Taken<U64>) {
    Widths();
    match TakeInt(s, 8) case Short => Short case Taken(v, rest) => Taken(v, rest)
  }

  function TakeQueueSize(s: seq<bv8>): Taken<Payload> {
    match TakeU32(s) case Short => Short case Taken(v, rest) => Taken(QueueSizeUpdate(v), rest)
  }

  function TakePatchMap(s: seq<bv8>): Taken<Payload> {
    match TakeU64(s)
    case Short => Short
    case Taken(id, rest) =>
      match TakeU32(rest)
      case Short => Short
      case Taken(v, rest) => Taken(FilePatchMap(id, v), rest)
  }

  function TakeControl(s: seq<bv8>): Taken<Payload> {
    match TakeBytes(s, 1)
    case Short => Short
    case Taken(b, rest) => match TakeU32(rest) case Short => Short case Taken(v, rest) => Taken(Control(b[0], v), rest)
  }

  function TakeFileMeta(s: seq<bv8>): Taken<Payload> {
    match TakeU64(s)
    case Short => Short
    case Taken(id, s1) =>
    match TakeU32(s1)
    case Short => Short
    case Taken(length, s2) =>
    match TakeBytes(s2, length)
    case Short => Short
    case Taken(name, s3) =>
    match TakeU64(s3)
    case Short => Short
    case Taken(size, s4) =>
    match TakeU32(s4)
    case Short => Short
    case Taken(total, s5) =>
    match TakeBytes(s5, 32)
    case Short => Short
    case Taken(hash, rest) => Taken(FileMeta(id, name, size, total, hash), rest)
  }

  function TakePayload(tag: nat, s: seq<bv8>): Taken<Payload>
    requires 1 <= tag <= 4
  {
    if tag == QUEUE_SIZE_UPDATE then TakeQueueSize(s)
    else if tag == FILE_META then TakeFileMeta(s)
    else if tag == FILE_PATCH_MAP then TakePatchMap(s)
    else TakeControl(s)
  }

  function DecodeMessage(data: seq<bv8>): Result {
    Widths();
    match TakeInt(data, 2)
    case Short => Err(OutOfRange)
    case Taken(tag, s) =>
      if !(1 <= tag <= 4) then Err(UnknownType)
      else match TakePayload(tag, s) case Short => Err(OutOfRange) case Taken(p, _) => Ok(Message(tag, p))
  }

  // ----- The coders -----

  method EncodeSystemMessage(m: Message) returns (data: seq<bv8>)
    ensures data == EncodeMessage(m)
  {
    hide Encode;
    var writer := new ByteWriter();
    writer.Write(m.tag, 2);
    match m.payload {
      case QueueSizeUpdate(size) =>
        writer.Write(size, 4);
      case FileMeta(id, name, size, total, hash) =>
        writer.Write(id, 8);
        writer.Write(|name|, 4);
        writer.WriteBytes(name);
        writer.Write(size, 8);
        writer.Write(total, 4);
        writer.WriteBytes(hash);
      case FilePatchMap(id, index) =>
        writer.Write(id, 8);
        writer.Write(index, 4);
      case Control(command, seconds) =>
        writer.WriteBytes([command]);
        writer.Write(seconds, 4);
    }
    data := writer.buffer;
  }

  method DecodeFileMeta(reader: ByteReader) returns (t: Taken<Payload>)
    requires reader.Valid()
    modifies reader
    ensures reader.Valid()
    ensures t == TakeFileMeta(old(reader.Rest()))
  {
    hide TakeInt, TakeBytes, Bound;
    Widths();
    var id := reader.Read(8);
    if id.Short? { return Short; }
    var length := reader.Read(4);
    if length.Short? { return Short; }
    var name := reader.ReadBytes(length.value);
    if name.Short? { return Short; }
    var size := reader.Read(8);
    if size.Short? { return Short; }
    var total := reader.Read(4);
    if total.Short? { return Short; }
    var hash := reader.ReadBytes(32);
    if hash.Short? { return Short; }
    TakenLength(total.rest, 32, hash.value, hash.rest);
    t := Taken(FileMeta(id.value, name.value, size.value, total.value, hash.value), hash.rest);
  }

  lemma TakenLength(s: seq<bv8>, n: nat, b: seq<bv8>, rest: seq<bv8>)
    requires TakeBytes(s, n) == Taken(b, rest)
    ensures |b| == n
  {}

  method DecodeControl(reader: ByteReader) returns (t: Taken<Payload>)
    requires reader.Valid()
    modifies reader
    ensures reader.Valid()
    ensures t == TakeControl(old(reader.Rest()))
  {
    hide TakeInt, Bound;
    Widths();
    var command := reader.ReadBytes(1);
    if command.Short? { return Short; }
    var seconds := reader.Read(4);
    if seconds.Short? { return Short; }
    t := Taken(Control(command.value[0], seconds.value), seconds.rest);
  }

  method DecodePayload(tag: U16, reader: ByteReader) returns (t: Taken<Payload>)
    requires reader.Valid() && 1 <= tag <= 4
    modifies reader
    ensures t == TakePayload(tag, old(reader.Rest()))
  {
    hide TakeInt, TakeFileMeta, TakeControl, Bound;
    Widths();
    if tag == QUEUE_SIZE_UPDATE {
      var size := reader.Read(4);
      if size.Short? { return Short; }
      t := Taken(QueueSizeUpdate(size.value), size.rest);
    } else if tag == FILE_META {
      t := DecodeFileMeta(reader);
    } else if tag == FILE_PATCH_MAP {
      var id := reader.Read(8);
      if id.Short? { return Short; }
      var index := reader.Read(4);
      if index.Short? { return Short; }
      t := Taken(FilePatchMap(id.value, index.value), index.rest);
    } else {
      t := DecodeControl(reader);
    }
  }

  method DecodeSystemMessage(data: seq<bv8>) returns (r: Result)
    ensures r == DecodeMessage(data)
  {
    hide TakeInt, TakePayload, Bound;
    Widths();
    var reader := new ByteReader(data);
    var tag := reader.Read(2);
    if tag.Short? { return Err(OutOfRange); }
    if tag.value != QUEUE_SIZE_UPDATE && tag.value != FILE_META && tag.value != FILE_PATCH_MAP && tag.value != CONTROL {
      return Err(UnknownType);
    }
    var payload := DecodePayload(tag.value, reader);
    if payload.Short? { return Err(OutOfRange); }
    r := Ok(Message(tag.value, payload.value));
  }

  // ----- Decoding is the inverse of encoding -----

  lemma TakeU32Iff(s: seq<bv8>, v: U32, rest: seq<bv8>)
    ensures TakeU32(s) == Taken(v, rest) <==> s == Encode(v, 4) + rest
  {
    hide TakeInt, Encode, Bound;
    Widths();
    TakeIntIff(s, 4, v, rest);
  }

  lemma TakeU64Iff(s: seq<bv8>, v: U64, rest: seq<bv8>)
    ensures TakeU64(s) == Taken(v, rest) <==> s == Encode(v, 8) + rest
  {
    hide TakeInt, Encode, Bound;
    Widths();
    TakeIntIff(s, 8, v, rest);
  }

  lemma Regroup(a: seq<bv8>, b: seq<bv8>, c: seq<bv8>)
    ensures (a + b) + c == a + (b + c)
  {}

  lemma TakeQueueSizeIff(s: seq<bv8>, p: Payload, rest: seq<bv8>)
    requires p.QueueSizeUpdate?
    ensures TakeQueueSize(s) == Taken(p, rest) <==> s == EncodePayload(p) + rest
  {
    hide TakeU32, Encode;
    TakeU32Iff(s, p.queueSize, rest);
  }

  lemma TakePatchMapIff(s: seq<bv8>, p: Payload, rest: seq<bv8>)
    requires p.FilePatchMap?
    ensures TakePatchMap(s) == Taken(p, rest) <==> s == EncodePayload(p) + rest
  {
    hide TakeU32, TakeU64, Encode;
    var s1 := Encode(p.patchIndex, 4) + rest;
    Regroup(Encode(p.mappedId, 8), Encode(p.patchIndex, 4), rest);
    TakeU64Iff(s, p.mappedId, s1);
    TakeU32Iff(s1, p.patchIndex, rest);
    if TakePatchMap(s) == Taken(p, rest) {
      TakeU32Iff(TakeU64(s).rest, p.patchIndex, rest);
    }
  }

  lemma TakeControlIff(s: seq<bv8>, p: Payload, rest: seq<bv8>)
    requires p.Control?
    ensures TakeControl(s) == Taken(p, rest) <==> s == EncodePayload(p) + rest
  {
    hide TakeU32, Encode;
    var s1 := Encode(p.valueSeconds, 4) + rest;
    Regroup([p.command], Encode(p.valueSeconds, 4), rest);
    TakeBytesIff(s, 1, [p.command], s1);
    TakeU32Iff(s1, p.valueSeconds, rest);
    if TakeControl(s) == Taken(p, rest) {
      TakeU32Iff(s[1..], p.valueSeconds, rest);
      assert s[..1] == [p.command];
    }
  }

  function HashOf(p: Payload): (h: seq<bv8>)
    requires p.FileMeta?
    ensures |h| == 32
  { p.sha256 }

  /** What follows each field of a file description. */
  function AfterTotal(p: Payload, rest: seq<bv8>): seq<bv8>
    requires p.FileMeta?
  { HashOf(p) + rest }

  function AfterSize(p: Payload, rest: seq<bv8>): seq<bv8>
    requires p.FileMeta?
  { Encode(p.totalPatches, 4) + AfterTotal(p, rest) }

  function AfterName(p: Payload, rest: seq<bv8>): seq<bv8>
    requires p.FileMeta?
  { Encode(p.originalSize, 8) + AfterSize(p, rest) }

  function AfterLength(p: Payload, rest: seq<bv8>): seq<bv8>
    requires p.FileMeta?
  { p.name + AfterName(p, rest) }

  function AfterId(p: Payload, rest: seq<bv8>): seq<bv8>
    requires p.FileMeta?
  { Encode(|p.name|, 4) + AfterLength(p, rest) }

  lemma FileMetaRegrouped(p: Payload, rest: seq<bv8>)
    requires p.FileMeta?
    ensures EncodePayload(p) + rest == Encode(p.fileId, 8) + AfterId(p, rest)
  {}

  lemma TakeFileMetaOfEncoding(p: Payload, rest: seq<bv8>)
    requires p.FileMeta? && |p.name| < 0x1_0000_0000
    ensures TakeFileMeta(EncodePayload(p) + rest) == Taken(p, rest)
  {
    hide TakeU32, TakeU64, TakeBytes, Encode, AfterId, AfterLength, AfterName, AfterSize, AfterTotal, EncodePayload;
    FileMetaRegrouped(p, rest);
    TakeFields(p, rest);
  }

  lemma TakeFields(p: Payload, rest: seq<bv8>)
    requires p.FileMeta? && |p.name| < 0x1_0000_0000
    ensures TakeU64(Encode(p.fileId, 8) + AfterId(p, rest)) == Taken(p.fileId, AfterId(p, rest))
    ensures TakeU32(AfterId(p, rest)) == Taken(|p.name|, AfterLength(p, rest))
    ensures TakeBytes(AfterLength(p, rest), |p.name|) == Taken(p.name, AfterName(p, rest))
    ensures TakeU64(AfterName(p, rest)) == Taken(p.originalSize, AfterSize(p, rest))
    ensures TakeU32(AfterSize(p, rest)) == Taken(p.totalPatches, AfterTotal(p, rest))
    ensures TakeBytes(AfterTotal(p, rest), 32) == Taken(HashOf(p), rest)
  {
    hide TakeU32, TakeU64, TakeBytes, Encode;
    TakeU64Iff(Encode(p.fileId, 8) + AfterId(p, rest), p.fileId, AfterId(p, rest));
    TakeU32Iff(AfterId(p, rest), |p.name|, AfterLength(p, rest));
    TakeBytesIff(AfterLength(p, rest), |p.name|, p.name, AfterName(p, rest));
    TakeU64Iff(AfterName(p, rest), p.originalSize, AfterSize(p, rest));
    TakeU32Iff(AfterSize(p, rest), p.totalPatches, AfterTotal(p, rest));
    TakeBytesIff(AfterTotal(p, rest), 32, HashOf(p), rest);
  }

  lemma FileMetaIsItsEncoding(s: seq<bv8>, p: Payload, rest: seq<bv8>)
    requires TakeFileMeta(s) == Taken(p, rest)
    ensures p.FileMeta? && |p.name| < 0x1_0000_0000 && s == EncodePayload(p) + rest
  {
    hide TakeU32, TakeU64, TakeBytes, Encode, EncodePayload;
    var s1 := TakeU64(s).rest;
    var s2 := TakeU32(s1).rest;
    var s3 := TakeBytes(s2, TakeU32(s1).value).rest;
    var s4 := TakeU64(s3).rest;
    var s5 := TakeU32(s4).rest;
    TakeU64Iff(s, p.fileId, s1);
    TakeU32Iff(s1, TakeU32(s1).value, s2);
    TakeBytesIff(s2, TakeU32(s1).value, p.name, s3);
    TakeU64Iff(s3, p.originalSize, s4);
    TakeU32Iff(s4, p.totalPatches, s5);
    TakeBytesIff(s5, 32, HashOf(p), rest);
    FileMetaRegrouped(p, rest);
  }

  lemma TakePayloadIff(s: seq<bv8>, tag: U16, p: Payload, rest: seq<bv8>)
    requires 1 <= tag <= 4
    ensures TakePayload(tag, s) == Taken(p, rest) <==> WellFormed(Message(tag, p)) && s == EncodePayload(p) + rest
  {
    hide TakeQueueSize, TakeFileMeta, TakePatchMap, TakeControl, EncodePayload;
    KindOfTaken(tag, s);
    match p
    case QueueSizeUpdate(_) => TakeQueueSizeIff(s, p, rest);
    case FilePatchMap(_, _) => TakePatchMapIff(s, p, rest);
    case Control(_, _) => TakeControlIff(s, p, rest);
    case FileMeta(_, _, _, _, _) =>
      if TakeFileMeta(s) == Taken(p, rest) {
        FileMetaIsItsEncoding(s, p, rest);
      } else if WellFormed(Message(FILE_META, p)) {
        TakeFileMetaOfEncoding(p, rest);
      }
  }

  lemma KindOfTaken(tag: U16, s: seq<bv8>)
    requires 1 <= tag <= 4
    ensures TakePayload(tag, s).Taken? ==> TagOf(TakePayload(tag, s).value) == tag
  {}

  /** The decoder accepts exactly the encodings of well-formed messages, followed by anything, and
      returns the message encoded. */
  lemma DecodeIsInverse(data: seq<bv8>, m: Message)
    ensures DecodeMessage(data) == Ok(m) <==> WellFormed(m) && EncodeMessage(m) <= data
  {
    hide TakePayload, EncodePayload, Encode, TakeInt, Bound;
    Widths();
    if DecodeMessage(data) == Ok(m) {
      var s := TakeInt(data, 2).rest;
      var rest := TakePayload(m.tag, s).rest;
      TakeIntIff(data, 2, m.tag, s);
      TakePayloadIff(s, m.tag, m.payload, rest);
      Regroup(Encode(m.tag, 2), EncodePayload(m.payload), rest);
    }
    if WellFormed(m) && EncodeMessage(m) <= data {
      var rest := data[|EncodeMessage(m)|..];
      var s := EncodePayload(m.payload) + rest;
      Regroup(Encode(m.tag, 2), EncodePayload(m.payload), rest);
      TakeIntIff(data, 2, m.tag, s);
      TakePayloadIff(s, m.tag, m.payload, rest);
    }
  }

  /** A message survives the wire, whatever follows it, exactly when its tag goes with its payload
      and its name is shorter than 2^32 bytes. */
  lemma MessageRoundTrip(m: Message, rest: seq<bv8>)
    ensures DecodeMessage(EncodeMessage(m) + rest) == Ok(m) <==> WellFormed(m)
  {
    DecodeIsInverse(EncodeMessage(m) + rest, m);
  }

  /** No message is cut short unnoticed: every strict prefix of an encoding is rejected. */
  lemma StrictPrefixIsRejected(m: Message, n: nat)
    requires WellFormed(m) && n < |EncodeMessage(m)|
    ensures DecodeMessage(EncodeMessage(m)[..n]) == Err(OutOfRange)
  {
    hide EncodeMessage, DecodeMessage, WellFormed;
    var whole := EncodeMessage(m);
    assert whole <= whole;
    DecodeIsInverse(whole, m);
    var r := DecodeMessage(whole[..n]);
    assert r.Ok? || r.error.OutOfRange? || r.error.UnknownType?;
    if r.Ok? {
      var m' := r.message;
      DecodeIsInverse(whole[..n], m');
      DecodeIsInverse(whole, m');
      assert false;
    }
    PrefixErrors(m, n);
  }

  /** The tag of a cut message is either missing or known. */
  lemma PrefixErrors(m: Message, n: nat)
    requires WellFormed(m) && n < |EncodeMessage(m)|
    ensures DecodeMessage(EncodeMessage(m)[..n]) != Err(UnknownType)
  {
    hide TakePayload, EncodePayload, Encode, TakeInt, Bound;
    Widths();
    var cut := EncodeMessage(m)[..n];
    if n >= 2 {
      TakeIntIff(cut, 2, m.tag, cut[2..]);
      assert cut == Encode(m.tag, 2) + cut[2..];
    } else {
      TooShort(cut);
    }
  }

  lemma TooShort(s: seq<bv8>)
    requires |s| < 2
    ensures TakeInt(s, 2).Short?
  {}
}
