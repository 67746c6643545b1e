/** Where the server keeps chunks until their file is complete. */
module Storage {
  import opened Disk
  import Crc32
  import ErrorDetection

  datatype ChunkData = ChunkData(
    fileId: string, originalName: string, index: nat, totalChunks: nat, ttl: int,
    headerBytes: seq<bv8>, payload: seq<bv8>, headerCrc: bv32, payloadCrc: bv32)

  datatype PayloadRecord = PayloadRecord(
    fileId: string, originalName: string, totalChunks: nat, chunkFiles: seq<Option<Path>>)

  datatype Entry = Entry(record: PayloadRecord, received: set<nat>, lastUpdate: int, ttl: int, complete: bool)

  type Payloads = map<string, Entry>

  // ----- Specification -----

  predicate CrcsMatch(chunk: ChunkData) {
    Crc32.Crc(chunk.headerBytes) == chunk.headerCrc && Crc32.Crc(chunk.payload) == chunk.payloadCrc
  }

  function Resized(files: seq<Option<Path>>, n: nat): (r: seq<Option<Path>>)
    ensures |r| == if n > |files| then n else |files|
  {
    if n > |files| then files + seq(n - |files|, i => None) else files
  }

  function EmptyEntry(): Entry {
    Entry(PayloadRecord("", "", 0, []), {}, 0, 0, false)
  }

  /** The entry of a chunk's file after the chunk is in: the first chunk fixes the name and the
      total, later ones can only make the list of files longer. */
  function Updated(entry: Entry, chunk: ChunkData, now: int, defaultTtl: int): Entry
    requires chunk.index < chunk.totalChunks
  {
    var record := if entry.record.chunkFiles == []
                  then PayloadRecord(chunk.fileId, chunk.originalName, chunk.totalChunks, [])
                  else entry.record;
    var files := Resized(record.chunkFiles, chunk.totalChunks)[chunk.index := Some(Patch(chunk.fileId, chunk.index))];
    var received := entry.received + {chunk.index};
    Entry(record.(chunkFiles := files), received, now,
          if chunk.ttl > 0 then chunk.ttl else defaultTtl,
          |received| == record.totalChunks)
  }

  function Registered(payloads: Payloads, chunk: ChunkData, now: int, defaultTtl: int): Payloads
    requires chunk.index < chunk.totalChunks
  {
    var entry := if chunk.fileId in payloads then payloads[chunk.fileId] else EmptyEntry();
    payloads[chunk.fileId := Updated(entry, chunk, now, defaultTtl)]
  }

  function RecordIfComplete(entry: Entry): Option<PayloadRecord> {
    if |entry.received| == entry.record.totalChunks then Some(entry.record) else None
  }

  predicate Expired(entry: Entry, now: int) { now - entry.lastUpdate > entry.ttl }

  function WithoutExpired(payloads: Payloads, now: int): Payloads {
    map id | id in payloads && !Expired(payloads[id], now) :: payloads[id]
  }

  function WithTtl(payloads: Payloads, ttl: int): Payloads {
    map id | id in payloads :: payloads[id].(ttl := ttl)
  }

  function ExpiredIds(payloads: Payloads, now: int): set<string> {
    set id | id in payloads && Expired(payloads[id], now)
  }

  /** What the disk answers while a patch is written: whether the directory can be made and the
      temporary file be opened, how many bytes it has room for, whether they can be synced and the
      file be renamed. */
  datatype Conditions = Conditions(dir: bool, open: bool, room: nat, sync: bool, rename: bool)

  /** Exactly when a chunk becomes a patch. */
  predicate BecomesPatch(chunk: ChunkData, c: Conditions) {
    CrcsMatch(chunk) && c.dir && c.open && |chunk.payload| <= c.room && c.sync && c.rename
  }

  /** The disk afterwards.  A failed write leaves no temporary file behind, a failed renaming does. */
  function AfterWriting(files: Files, chunk: ChunkData, c: Conditions): Files {
    var temporary := Temporary(chunk.fileId, chunk.index);
    if !CrcsMatch(chunk) || !c.dir || !c.open then files
    else if |chunk.payload| > c.room || !c.sync then files - {temporary}
    else if !c.rename then files[temporary := chunk.payload]
    else (files - {temporary})[Patch(chunk.fileId, chunk.index) := chunk.payload]
  }

  // ----- The storage object -----

  class Storage {
    const fs: FileSystem
    var payloads: Payloads
    var defaultTtl: int

    constructor (fs: FileSystem, defaultTtl: int)
      ensures this.fs == fs && payloads == map[] && this.defaultTtl == defaultTtl
    {
      this.fs, payloads, this.defaultTtl := fs, map[], defaultTtl;
    }

    method VerifyCrc(chunk: ChunkData) returns (ok: bool)
      ensures ok == CrcsMatch(chunk)
    {
      var headerCrc := Crc32.BitByBit(chunk.headerBytes);
      if headerCrc != chunk.headerCrc {
        return false;
      }
      var payloadCrc := Crc32.BitByBit(chunk.payload);
      ok := payloadCrc == chunk.payloadCrc;
    }

    /** Writes a file under a temporary name and renames it; no lock is held.  Each write takes as
        many bytes as `sizes` and the room on the disk allow. */
    method WriteBinaryFile(chunk: ChunkData, c: Conditions, sizes: nat -> nat) returns (ok: bool)
      modifies fs
      ensures ok == (c.open && |chunk.payload| <= c.room && c.sync && c.rename)
      ensures var temporary := Temporary(chunk.fileId, chunk.index);
              fs.files ==
                if !c.open then old(fs.files)
                else if |chunk.payload| > c.room || !c.sync then old(fs.files) - {temporary}
                else if !c.rename then old(fs.files)[temporary := chunk.payload]
                else (old(fs.files) - {temporary})[Patch(chunk.fileId, chunk.index) := chunk.payload]
    {
      var temporary := Temporary(chunk.fileId, chunk.index);
      if !c.open {
        return false;
      }
      fs.files := fs.files[temporary := []];
      var remaining: nat := |chunk.payload|;
      while remaining > 0
        invariant remaining <= |chunk.payload| && |chunk.payload| - remaining <= c.room
        invariant fs.files == old(fs.files)[temporary := chunk.payload[..|chunk.payload| - remaining]]
      {
        var done := |chunk.payload| - remaining;
        if done == c.room {
          fs.files := fs.files - {temporary};
          return false;
        }
        var written := 1 + sizes(done) % remaining;
        if done + written > c.room {
          written := c.room - done;
        }
        assert chunk.payload[..done] + chunk.payload[done..done + written] == chunk.payload[..done + written];
        fs.files := fs.files[temporary := fs.files[temporary] + chunk.payload[done..done + written]];
        remaining := remaining - written;
      }
      assert chunk.payload[..|chunk.payload|] == chunk.payload;
      if !c.sync {
        fs.files := fs.files - {temporary};
        return false;
      }
      if !c.rename {
        return false;
      }
      assert fs.files - {temporary} == old(fs.files) - {temporary};
      fs.files := Renamed(fs.files, temporary, Patch(chunk.fileId, chunk.index));
      ok := true;
    }

    /** Checks a chunk and writes its patch file. */
    method WriteChunk(chunk: ChunkData, c: Conditions, sizes: nat -> nat) returns (ok: bool)
      modifies fs
      ensures ok == BecomesPatch(chunk, c)
      ensures fs.files == AfterWriting(old(fs.files), chunk, c)
    {
      ok := VerifyCrc(chunk);
      if !ok || !c.dir {
        return false;
      }
      ok := WriteBinaryFile(chunk, c, sizes);
    }

    /** The locked part of storing a chunk. */
    method Register(chunk: ChunkData, now: int) returns (r: Option<PayloadRecord>)
      requires chunk.index < chunk.totalChunks
      modifies this`payloads
      ensures payloads == Registered(old(payloads), chunk, now, defaultTtl)
      ensures r == RecordIfComplete(payloads[chunk.fileId])
    {
      var entry := if chunk.fileId in payloads then payloads[chunk.fileId] else EmptyEntry();
      var record := entry.record;
      if record.chunkFiles == [] {
        record := PayloadRecord(chunk.fileId, chunk.originalName, chunk.totalChunks, []);
      }
      var files := Resized(record.chunkFiles, chunk.totalChunks);
      files := files[chunk.index := Some(Patch(chunk.fileId, chunk.index))];
      record := record.(chunkFiles := files);
      var received := entry.received + {chunk.index};
      var complete := |received| == record.totalChunks;
      var ttl := if chunk.ttl > 0 then chunk.ttl else defaultTtl;
      payloads := payloads[chunk.fileId := Entry(record, received, now, ttl, complete)];
      if complete {
        return Some(record);
      }
      r := None;
    }

    /** The whole of storing a chunk, as one handler performs it. */
    method StoreChunk(chunk: ChunkData, c: Conditions, sizes: nat -> nat, now: int) returns (r: Option<PayloadRecord>)
      requires chunk.index < chunk.totalChunks
      modifies this`payloads, fs
      ensures fs.files == AfterWriting(old(fs.files), chunk, c)
      ensures payloads ==
                if BecomesPatch(chunk, c) then Registered(old(payloads), chunk, now, defaultTtl) else old(payloads)
      ensures r == if BecomesPatch(chunk, c) then RecordIfComplete(payloads[chunk.fileId]) else None
    {
      var ok := WriteChunk(chunk, c, sizes);
      if !ok {
        return None;
      }
      r := Register(chunk, now);
    }

    method MarkPublished(fileId: string)
      modifies this`payloads
      ensures payloads == old(payloads) - {fileId}
    {
      payloads := payloads - {fileId};
    }

    /** The records of all complete files, each once. */
    method ReadyPayloads() returns (ready: seq<PayloadRecord>)
      ensures forall r :: r in ready <==> exists id :: id in payloads && RecordIfComplete(payloads[id]) == Some(r)
      ensures AllWellFormed(payloads) ==> forall j, k :: 0 <= j < k < |ready| ==> ready[j] != ready[k]
    {
      ready := [];
      var rest := payloads.Keys;
      while rest != {}
        invariant rest <= payloads.Keys
        invariant forall r :: r in ready <==>
                    exists id :: id in payloads && id !in rest && RecordIfComplete(payloads[id]) == Some(r)
        invariant AllWellFormed(payloads) ==> forall j, k :: 0 <= j < k < |ready| ==> ready[j] != ready[k]
        decreases rest
      {
        var id :| id in rest;
        rest := rest - {id};
        if |payloads[id].received| == payloads[id].record.totalChunks {
          ready := ready + [payloads[id].record];
        }
      }
    }

    method UpdateTtl(ttl: int)
      modifies this`payloads, this`defaultTtl
      ensures defaultTtl == ttl && payloads == WithTtl(old(payloads), ttl)
    {
      defaultTtl := ttl;
      var ids := payloads.Keys;
      while ids != {}
        invariant defaultTtl == ttl && ids <= payloads.Keys == old(payloads).Keys
        invariant forall id :: id in payloads ==>
                    payloads[id] == if id in ids then old(payloads)[id] else old(payloads)[id].(ttl := ttl)
        decreases ids
      {
        var id :| id in ids;
        ids := ids - {id};
        payloads := payloads[id := payloads[id].(ttl := ttl)];
      }
      assert payloads.Keys == WithTtl(old(payloads), ttl).Keys;
    }

    /** Forgets expired files and removes their directories, as far as they can be removed. */
    method CleanupExpired(now: int, left: set<Path>)
      modifies this`payloads, fs
      ensures payloads == WithoutExpired(old(payloads), now)
      ensures fs.files == RemoveDirectories(old(fs.files), ExpiredIds(old(payloads), now), left)
    {
      var ids := payloads.Keys;
      ghost var gone: set<string> := {};
      while ids != {}
        invariant ids <= payloads.Keys && gone <= old(payloads).Keys && ids !! gone
        invariant payloads == map id | id in old(payloads) && id !in gone :: old(payloads)[id]
        invariant gone == set id | id in old(payloads) && id !in ids && Expired(old(payloads)[id], now)
        invariant fs.files == RemoveDirectories(old(fs.files), gone, left)
        decreases ids
      {
        var id :| id in ids;
        ids := ids - {id};
        if now - payloads[id].lastUpdate > payloads[id].ttl {
          fs.files := RemoveDirectories(fs.files, {id}, left);
          payloads := payloads - {id};
          gone := gone + {id};
        }
      }
    }
  }

  // ----- What an entry always satisfies -----

  /** The received indices are those of the files listed, each file is the patch of its index,
      and the total is one that some chunk announced. */
  ghost predicate WellFormed(id: string, entry: Entry) {
    && entry.record.fileId == id
    && 1 <= entry.record.totalChunks <= |entry.record.chunkFiles|
    && (forall i: nat :: i in entry.received <==> i < |entry.record.chunkFiles| && entry.record.chunkFiles[i].Some?)
    && (forall i: nat :: i in entry.received ==> entry.record.chunkFiles[i] == Some(Patch(id, i)))
  }

  ghost predicate AllWellFormed(payloads: Payloads) {
    forall id :: id in payloads ==> WellFormed(id, payloads[id])
  }

  lemma UpdateKeepsWellFormed(entry: Entry, chunk: ChunkData, now: int, defaultTtl: int)
    requires chunk.index < chunk.totalChunks
    requires entry == EmptyEntry() || WellFormed(chunk.fileId, entry)
    ensures WellFormed(chunk.fileId, Updated(entry, chunk, now, defaultTtl))
  {}

  lemma RegisterKeepsWellFormed(payloads: Payloads, chunk: ChunkData, now: int, defaultTtl: int)
    requires chunk.index < chunk.totalChunks && AllWellFormed(payloads)
    ensures AllWellFormed(Registered(payloads, chunk, now, defaultTtl))
  {}

  function UpTo(n: nat): (s: set<nat>)
    ensures |s| == n && forall i: nat :: i in s <==> i < n
  {
    if n == 0 then {} else UpTo(n - 1) + {n - 1}
  }

  lemma {:induction false} SubsetOfSameSize(s: set<nat>, t: set<nat>)
    requires s <= t && |s| == |t|
    ensures s == t
    decreases |s|
  {
    if s == {} {
      assert t == {};
    } else {
      var x :| x in s;
      SubsetOfSameSize(s - {x}, t - {x});
      assert s == (s - {x}) + {x} && t == (t - {x}) + {x};
    }
  }

  /** When the list of files has the length of the total, counting the received chunks is
      enough: the count is the total exactly when no slot is empty. */
  lemma CountingIsEnough(id: string, entry: Entry)
    requires WellFormed(id, entry) && |entry.record.chunkFiles| == entry.record.totalChunks
    ensures RecordIfComplete(entry).Some? <==> entry.received == UpTo(entry.record.totalChunks)
    ensures RecordIfComplete(entry).Some? ==>
              forall i :: 0 <= i < entry.record.totalChunks ==> entry.record.chunkFiles[i] == Some(Patch(id, i))
  {
    var total := entry.record.totalChunks;
    assert entry.received <= UpTo(total);
    if |entry.received| == total {
      SubsetOfSameSize(entry.received, UpTo(total));
      forall i | 0 <= i < total
        ensures i in entry.received
      {
        assert i in UpTo(total);
      }
    }
  }

  predicate NoEmptySlot(record: PayloadRecord) {
    forall i :: 0 <= i < |record.chunkFiles| ==> record.chunkFiles[i].Some?
  }

  /** The count alone can be fooled: of the records the storage hands out, those without an empty
      slot are exactly those whose list is as long as their total. */
  lemma HandedOutWithoutHoles(id: string, entry: Entry)
    requires WellFormed(id, entry) && RecordIfComplete(entry).Some?
    ensures NoEmptySlot(entry.record) <==> |entry.record.chunkFiles| == entry.record.totalChunks
  {
    if |entry.record.chunkFiles| == entry.record.totalChunks {
      CountingIsEnough(id, entry);
    }
    if NoEmptySlot(entry.record) {
      assert entry.received == UpTo(|entry.record.chunkFiles|);
    }
  }

  /** A payload damaged in one burst of at most 32 bits never passes for the one its CRC was
      computed from. */
  lemma DamagedPayloadIsRejected(chunk: ChunkData, original: seq<bv8>, start: nat)
    requires chunk.payloadCrc == Crc32.Crc(original)
    requires ErrorDetection.AgreeOutside(chunk.payload, original, start, 32)
    ensures CrcsMatch(chunk) ==> chunk.payload == original
  {
    ErrorDetection.BurstIsDetected(chunk.payload, original, start);
  }

  /** So is a damaged header, whose numbers the CRC of the header covers. */
  lemma DamagedHeaderIsRejected(chunk: ChunkData, original: seq<bv8>, start: nat)
    requires chunk.headerCrc == Crc32.Crc(original)
    requires ErrorDetection.AgreeOutside(chunk.headerBytes, original, start, 32)
    ensures CrcsMatch(chunk) ==> chunk.headerBytes == original
  {
    ErrorDetection.BurstIsDetected(chunk.headerBytes, original, start);
  }
}
