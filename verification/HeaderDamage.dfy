/** Exactly which damage to an accepted header goes unnoticed. */
module HeaderDamage {
  import opened LittleEndian
  import opened PatchHeader
  import opened ErrorDetection
  import Crc32

  /** Magic, version and size of a supported header. */
  const FRONT: nat := 12

  function Front(): seq<bv8> { MAGIC + Encode(VERSION, 4) + Encode(ENCODED_SIZE, 4) }

  function CrcFieldOf(data: seq<bv8>): (field: seq<bv8>)
    requires |data| == ENCODED_SIZE
    ensures |field| == 4
  {
    data[CRC_AT..CRC_AT + 4]
  }

  lemma FieldSpells(data: seq<bv8>, at: nat, v: U32)
    requires at + 4 <= |data|
    ensures U32At(data, at) == v <==> data[at..at + 4] == Encode(v, 4)
  {
    hide Encode, Decode, Bound;
    EncodeDecode(data[at..at + 4]);
    if data[at..at + 4] == Encode(v, 4) {
      Number4(data, at, v);
    }
  }

  lemma FrontFields(data: seq<bv8>)
    requires |data| == ENCODED_SIZE
    ensures data[..FRONT] == Front() <==> data[..4] == MAGIC && Supported(Fields(data))
  {
    hide Encode, Decode, U32At, U64At;
    FieldSpells(data, 4, VERSION);
    FieldSpells(data, 8, ENCODED_SIZE);
    assert data[..FRONT] == data[..4] + data[4..8] + data[8..FRONT];
    if data[..FRONT] == Front() {
      assert data[..4] == Front()[..4] && data[4..8] == Front()[4..8] && data[8..FRONT] == Front()[8..FRONT];
    }
  }

  lemma NumberOf(x: bv32)
    ensures Encode(Number(x), 4) == WordBytes(x)
  {
    hide Encode, Decode, ByteOf, Bound;
    EncodeDecode(WordBytes(x));
  }

  /** Acceptance in terms of bytes. */
  lemma AcceptedBytes(data: seq<bv8>)
    requires |data| == ENCODED_SIZE
    ensures Deserialize(data).Ok? <==>
              data[..FRONT] == Front() && CrcFieldOf(data) == WordBytes(Crc32.Crc(Blanked(data)))
  {
    hide Front, Encode, Decode, U32At, U64At, Serialize, WordBytes, Number, Crc32.Crc, Blanked, Bound;
    FrontFields(data);
    if data[..4] == MAGIC {
      BlankedIsSerialized(data);
      NumberOf(Crc32.Crc(Blanked(data)));
      FieldSpells(data, CRC_AT, Number(Crc32.Crc(Blanked(data))));
    }
  }

  lemma ByteOfXor(x: bv32, y: bv32, z: bv32)
    requires z == Crc32.Xor(x, y)
    ensures ByteOf(z, 0) == ByteXor(ByteOf(x, 0), ByteOf(y, 0)) && ByteOf(z, 1) == ByteXor(ByteOf(x, 1), ByteOf(y, 1))
    ensures ByteOf(z, 2) == ByteXor(ByteOf(x, 2), ByteOf(y, 2)) && ByteOf(z, 3) == ByteXor(ByteOf(x, 3), ByteOf(y, 3))
  {}

  lemma DifferenceOfWords(x: bv32, y: bv32)
    ensures Differences(WordBytes(x), WordBytes(y)) == WordBytes(Crc32.Xor(x, y))
  {
    hide ByteOf, ByteXor, Crc32.Xor;
    ByteOfXor(x, y, Crc32.Xor(x, y));
  }

  lemma SameDifference(x: bv8, y: bv8, z: bv8)
    ensures ByteXor(x, y) == ByteXor(x, z) <==> y == z
  {}

  lemma DifferencesTell(a: seq<bv8>, b: seq<bv8>, c: seq<bv8>)
    requires |a| == |b| == |c|
    ensures Differences(a, b) == Differences(a, c) <==> b == c
  {
    hide ByteXor;
    forall i | 0 <= i < |a|
      ensures ByteXor(a[i], b[i]) == ByteXor(a[i], c[i]) <==> b[i] == c[i]
    {
      SameDifference(a[i], b[i], c[i]);
    }
    if Differences(a, b) == Differences(a, c) {
      assert forall i :: 0 <= i < |a| ==> Differences(a, b)[i] == Differences(a, c)[i];
    }
  }

  /** Whatever bytes of an accepted header are damaged, wherever they lie: the damage goes unnoticed
      exactly when magic, version and size are intact and the error in the CRC field is the CRC
      register of the error in the rest.  What the header says does not matter. */
  lemma AcceptanceDependsOnlyOnTheError(data: seq<bv8>, damaged: seq<bv8>)
    requires |data| == |damaged| == ENCODED_SIZE && Deserialize(data).Ok?
    ensures Deserialize(damaged).Ok? <==>
              && damaged[..FRONT] == data[..FRONT]
              && Differences(CrcFieldOf(data), CrcFieldOf(damaged))
                 == WordBytes(Crc32.Feed(0, Differences(Blanked(data), Blanked(damaged))))
  {
    hide Deserialize, Front, Crc32.Crc, Crc32.Feed, Crc32.Xor, ByteOf, WordBytes, ByteXor, Encode, Blanked, CrcFieldOf;
    var a, b := Blanked(data), Blanked(damaged);
    BlankedLength(data);
    BlankedLength(damaged);
    AcceptedBytes(data);
    AcceptedBytes(damaged);
    CrcsDifferAsTheErrorFeeds(a, b);
    DifferenceOfWords(Crc32.Crc(a), Crc32.Crc(b));
    DifferencesTell(CrcFieldOf(data), CrcFieldOf(damaged), WordBytes(Crc32.Crc(b)));
  }

  lemma BlankedLength(data: seq<bv8>)
    requires |data| == ENCODED_SIZE
    ensures |Blanked(data)| == ENCODED_SIZE
  {
    hide Encode;
  }

  // ----- Four bytes across the edge of the CRC field -----

  /** The last byte before the CRC field and three bytes of it, changed together. */
  function Straddled(data: seq<bv8>): (damaged: seq<bv8>)
    requires |data| == ENCODED_SIZE
    ensures |damaged| == ENCODED_SIZE
  {
    data[..31]
    + [ByteXor(data[31], 0x19), ByteXor(data[32], 0x2A), ByteXor(data[33], 0xF4), ByteXor(data[34], 0x63)]
    + data[35..]
  }

  lemma XorsWithZero(x: bv8)
    ensures ByteXor(x, x) == 0
  {}

  lemma XorsBack(x: bv8, y: bv8)
    ensures ByteXor(x, ByteXor(x, y)) == y && (ByteXor(x, y) == x <==> y == 0)
  {}

  function NoBytes(n: nat): (z: seq<bv8>)
    ensures |z| == n && forall i :: 0 <= i < n ==> z[i] == 0
  {
    seq(n, i => 0)
  }

  lemma ZeroFeeds(c: bv32, n: nat)
    ensures Crc32.Feed(c, NoBytes(0)) == c
    ensures Crc32.Feed(c, NoBytes(n + 1)) == Crc32.Feed(Crc32.ByteStep(c, 0), NoBytes(n))
  {
    hide Crc32.ByteStep;
    assert NoBytes(n + 1)[1..] == NoBytes(n);
  }

  lemma {:induction false} ZerosFeedNothing(n: nat)
    ensures Crc32.Feed(0, NoBytes(n)) == 0
    decreases n
  {
    hide Crc32.ByteStep, Crc32.Feed;
    if n == 0 {
      ZeroFeeds(0, 0);
    } else {
      ZeroFeeds(0, n - 1);
      EmptyStaysEmpty();
      ZerosFeedNothing(n - 1);
    }
  }

  lemma EmptyStaysEmpty()
    ensures Crc32.ByteStep(0, 0) == 0
  {}

  lemma NineSteps()
    ensures Crc32.ByteStep(0, 0x19) == 0x646BA8C0 && Crc32.ByteStep(0x646BA8C0, 0) == 0x9B00A918
    ensures Crc32.ByteStep(0x9B00A918, 0) == 0x13F798FF && Crc32.ByteStep(0x13F798FF, 0) == 0x2D111815
    ensures Crc32.ByteStep(0x2D111815, 0) == 0x6DF0F5F3 && Crc32.ByteStep(0x6DF0F5F3, 0) == 0x24D95353
    ensures Crc32.ByteStep(0x24D95353, 0) == 0xF246D91D && Crc32.ByteStep(0xF246D91D, 0) == 0x63F42A00
    ensures Crc32.ByteStep(0x63F42A00, 0) == 0x0063F42A
  {}

  lemma ErrorFeeds()
    ensures Crc32.Feed(0, NoBytes(31) + ([0x19] + NoBytes(8))) == 0x0063F42A
  {
    hide Crc32.ByteStep, Crc32.Feed, NoBytes;
    ZerosFeedNothing(31);
    Crc32.FeedAppends(0, NoBytes(31), [0x19] + NoBytes(8));
    NineSteps();
    FeedFirst(0, 0x19, NoBytes(8));
    ZeroFeeds(0x646BA8C0, 7);
    ZeroFeeds(0x9B00A918, 6);
    ZeroFeeds(0x13F798FF, 5);
    ZeroFeeds(0x2D111815, 4);
    ZeroFeeds(0x6DF0F5F3, 3);
    ZeroFeeds(0x24D95353, 2);
    ZeroFeeds(0xF246D91D, 1);
    ZeroFeeds(0x63F42A00, 0);
    ZeroFeeds(0x0063F42A, 0);
  }

  lemma FieldError()
    ensures WordBytes(0x0063F42A) == [0x2A, 0xF4, 0x63, 0]
  {}

  lemma ErrorBesideTheField(data: seq<bv8>)
    requires |data| == ENCODED_SIZE
    ensures |Blanked(data)| == |Blanked(Straddled(data))|
    ensures Differences(Blanked(data), Blanked(Straddled(data))) == NoBytes(31) + ([0x19] + NoBytes(8))
  {
    hide ByteXor, Encode;
    var a, b := Blanked(data), Blanked(Straddled(data));
    forall i | 0 <= i < ENCODED_SIZE
      ensures Differences(a, b)[i] == (NoBytes(31) + ([0x19] + NoBytes(8)))[i]
    {
      XorsWithZero(a[i]);
      XorsBack(a[i], 0x19);
    }
  }

  lemma ErrorInTheField(data: seq<bv8>)
    requires |data| == ENCODED_SIZE
    ensures Differences(CrcFieldOf(data), CrcFieldOf(Straddled(data))) == [0x2A, 0xF4, 0x63, 0]
  {
    hide ByteXor;
    XorsBack(data[32], 0x2A);
    XorsBack(data[33], 0xF4);
    XorsBack(data[34], 0x63);
    XorsWithZero(data[35]);
  }

  /** Four changed bytes that lie across the edge of the CRC field can escape: these do, in every
      header. */
  lemma StraddlingDamageCanEscape(data: seq<bv8>)
    requires |data| == ENCODED_SIZE && Deserialize(data).Ok?
    ensures DifferInFourBytes(data, Straddled(data), 31)
    ensures Deserialize(Straddled(data)).Ok? && Straddled(data) != data
  {
    hide Deserialize, WordBytes, Crc32.Feed, Blanked, ByteXor, Encode;
    AcceptanceDependsOnlyOnTheError(data, Straddled(data));
    ErrorBesideTheField(data);
    ErrorInTheField(data);
    ErrorFeeds();
    FieldError();
    XorsBack(data[31], 0x19);
    assert Straddled(data)[31] != data[31];
    assert Straddled(data)[..FRONT] == data[..FRONT];
  }
}
