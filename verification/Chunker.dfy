/** Cutting compressed data into chunks. */
module Chunker {

  /** Sizes and indices are 64 bits wide. */
  const SIZE_LIMIT := 0x1_0000_0000_0000_0000

  datatype CompressedFile = CompressedFile(descriptor: string, sha256Hex: string, data: seq<bv8>)

  datatype FileChunk = FileChunk(
    descriptor: string, sha256Hex: string, index: nat, totalChunks: nat, payload: seq<bv8>)

  /** The number of chunks: a ceiling division whose sum wraps around like the machine's. */
  function Total(n: nat, payloadSize: nat): nat
    requires payloadSize > 0
  {
    (n + payloadSize - 1) % SIZE_LIMIT / payloadSize
  }

  function Min(a: nat, b: nat): nat { if a < b then a else b }

  /** The bytes of chunk number `i`. */
  function Piece(data: seq<bv8>, payloadSize: nat, i: nat): seq<bv8>
  {
    data[Min(i * payloadSize, |data|)..Min((i + 1) * payloadSize, |data|)]
  }

  /** What splitting a file yields: every chunk names its file, its place and their number, and
      carries the bytes of its place. */
  ghost predicate IsSplit(file: CompressedFile, payloadSize: nat, chunks: seq<FileChunk>)
    requires file.data == [] || payloadSize > 0
  {
    && |chunks| == (if file.data == [] then 0 else Total(|file.data|, payloadSize))
    && forall i :: 0 <= i < |chunks| ==>
         && chunks[i].index == i && chunks[i].totalChunks == |chunks|
         && chunks[i].descriptor == file.descriptor && chunks[i].sha256Hex == file.sha256Hex
         && chunks[i].payload == Piece(file.data, payloadSize, i)
  }

  lemma OffsetsWithinData(n: nat, p: nat, i: nat)
    requires 0 < p && i < Total(n, p)
    ensures i * p < n && (i + 1) * p == i * p + p
  {
    var wrapped := (n + p - 1) % SIZE_LIMIT;
    assert wrapped <= n + p - 1;
    assert (i + 1) * p <= wrapped / p * p by { MultiplyMonotone(i + 1, wrapped / p, p); }
    assert wrapped / p * p <= wrapped;
  }

  lemma MultiplyMonotone(a: nat, b: nat, p: nat)
    requires a <= b
    ensures a * p <= b * p
  {}

  method Split(file: CompressedFile, payloadSize: nat) returns (chunks: seq<FileChunk>)
    requires |file.data| < SIZE_LIMIT && payloadSize < SIZE_LIMIT
    requires file.data == [] || payloadSize > 0
    ensures IsSplit(file, payloadSize, chunks)
    ensures forall i :: 0 <= i < |chunks| ==> chunks[i].index == i && chunks[i].totalChunks == |chunks|
    ensures forall chunk :: chunk in chunks ==>
              chunk.descriptor == file.descriptor && chunk.sha256Hex == file.sha256Hex
  {
    chunks := [];
    if |file.data| == 0 {
      return;
    }
    var total := (|file.data| + payloadSize - 1) % SIZE_LIMIT / payloadSize;
    for index := 0 to total
      invariant |chunks| == index
      invariant forall i :: 0 <= i < index ==>
                  chunks[i] == FileChunk(file.descriptor, file.sha256Hex, i, total, Piece(file.data, payloadSize, i))
    {
      OffsetsWithinData(|file.data|, payloadSize, index);
      var offset := index * payloadSize;
      var size := if payloadSize < |file.data| - offset then payloadSize else |file.data| - offset;
      chunks := chunks + [FileChunk(file.descriptor, file.sha256Hex, index, total, file.data[offset..offset + size])];
    }
  }

  // ----- The pieces make up the data -----

  /** The first `n` pieces, joined. */
  function Joined(data: seq<bv8>, payloadSize: nat, n: nat): seq<bv8> {
    if n == 0 then [] else Joined(data, payloadSize, n - 1) + Piece(data, payloadSize, n - 1)
  }

  lemma {:induction false} JoinedIsPrefix(data: seq<bv8>, p: nat, n: nat)
    ensures Joined(data, p, n) == data[..Min(n * p, |data|)]
    decreases n
  {
    if n == 0 {
    } else {
      JoinedIsPrefix(data, p, n - 1);
      MultiplyMonotone(n - 1, n, p);
      var a, b := Min((n - 1) * p, |data|), Min(n * p, |data|);
      assert data[..b] == data[..a] + data[a..b];
    }
  }

  lemma CeilingCovers(n: nat, p: nat)
    requires 0 < p && n + p - 1 < SIZE_LIMIT
    ensures Total(n, p) * p >= n
  {}

  lemma WrappedTotalIsZero(n: nat, p: nat)
    requires n < SIZE_LIMIT && 0 < p < SIZE_LIMIT && n + p - 1 >= SIZE_LIMIT
    ensures Total(n, p) == 0
  {}

  /** Splitting is complete exactly when the ceiling division does not wrap around: otherwise
      a non-empty file yields no chunk at all. */
  lemma SplitIsComplete(data: seq<bv8>, payloadSize: nat)
    requires |data| < 0x1_0000_0000_0000_0000 && 0 < payloadSize < 0x1_0000_0000_0000_0000
    ensures Joined(data, payloadSize, Total(|data|, payloadSize)) == data
            <==> |data| + payloadSize - 1 < 0x1_0000_0000_0000_0000
  {
    var total := Total(|data|, payloadSize);
    JoinedIsPrefix(data, payloadSize, total);
    if |data| + payloadSize - 1 < SIZE_LIMIT {
      CeilingCovers(|data|, payloadSize);
    } else {
      WrappedTotalIsZero(|data|, payloadSize);
    }
  }

  // ----- What a receiver makes of the chunks -----

  /** The payload of the chunk that says it is number `i`. */
  function PayloadAt(chunks: seq<FileChunk>, i: nat): seq<bv8> {
    if chunks == [] then []
    else if chunks[0].index == i then chunks[0].payload
    else PayloadAt(chunks[1..], i)
  }

  /** The payloads joined in the order of the numbers the chunks carry. */
  function Reassembled(chunks: seq<FileChunk>, n: nat): seq<bv8> {
    if n == 0 then [] else Reassembled(chunks, n - 1) + PayloadAt(chunks, n - 1)
  }

  lemma {:induction false} FoundByIndex(chunks: seq<FileChunk>, first: nat, i: nat)
    requires first <= i < first + |chunks|
    requires forall k :: 0 <= k < |chunks| ==> chunks[k].index == first + k
    ensures PayloadAt(chunks, i) == chunks[i - first].payload
    decreases |chunks|
  {
    if i == first {
    } else {
      FoundByIndex(chunks[1..], first + 1, i);
    }
  }

  lemma {:induction false} ReassembledIsJoined(file: CompressedFile, payloadSize: nat, chunks: seq<FileChunk>, n: nat)
    requires payloadSize > 0 && IsSplit(file, payloadSize, chunks) && n <= |chunks|
    ensures Reassembled(chunks, n) == Joined(file.data, payloadSize, n)
    decreases n
  {
    hide Total, Piece;
    if n == 0 {
    } else {
      ReassembledIsJoined(file, payloadSize, chunks, n - 1);
      FoundByIndex(chunks, 0, n - 1);
    }
  }

  /** Put together by the numbers they carry, the chunks of a split are the file, exactly when the
      ceiling division does not wrap around. */
  lemma SplitReassembles(file: CompressedFile, payloadSize: nat, chunks: seq<FileChunk>)
    requires |file.data| < 0x1_0000_0000_0000_0000 && 0 < payloadSize < 0x1_0000_0000_0000_0000
    requires IsSplit(file, payloadSize, chunks)
    ensures Reassembled(chunks, |chunks|) == file.data
            <==> |file.data| + payloadSize - 1 < 0x1_0000_0000_0000_0000
  {
    hide Total, Piece, Joined, Reassembled;
    ReassembledIsJoined(file, payloadSize, chunks, |chunks|);
    SplitIsComplete(file.data, payloadSize);
    NothingToSplit(payloadSize);
  }

  lemma NothingToSplitIsNoChunk(file: CompressedFile, payloadSize: nat, chunks: seq<FileChunk>)
    requires payloadSize > 0 && IsSplit(file, payloadSize, chunks) && chunks != []
    ensures |chunks| == Total(|file.data|, payloadSize)
  {}

  lemma NothingToSplit(payloadSize: nat)
    requires 0 < payloadSize < SIZE_LIMIT
    ensures Total(0, payloadSize) == 0
  {}

  /** Chunks are never empty, and only the last may be short. */
  lemma PieceSizes(data: seq<bv8>, payloadSize: nat, i: nat)
    requires 0 < payloadSize && i < Total(|data|, payloadSize)
    ensures 0 < |Piece(data, payloadSize, i)| <= payloadSize
    ensures i + 1 < Total(|data|, payloadSize) ==> |Piece(data, payloadSize, i)| == payloadSize
  {
    OffsetsWithinData(|data|, payloadSize, i);
    if i + 1 < Total(|data|, payloadSize) {
      OffsetsWithinData(|data|, payloadSize, i + 1);
    }
  }
}
