/** Why no two handlers may store the same chunk at once. */
module TornPatch {
  import opened Disk
  import opened Storage
  import opened Assembler
  import opened Relay
  import opened EndToEnd
  import opened Uploads
  import Crc32
  import ErrorDetection

  /** Two handlers store the same intact chunk.  The second one opens, and so empties, the temporary
      file the first has just written; the first one renames it, enters the chunk and assembles the
      file.  Every call succeeds. */
  function TornRun(chunk: ChunkData, record: PayloadRecord, now: int): seq<Step> {
    [OpenStore(1, chunk, true, true),
     WriteStore(1, |chunk.payload|, false),
     OpenStore(2, chunk, true, true),
     CloseStore(1, true, true),
     Register(chunk, now),
     Open(1, record, false, false),
     ReadChunk(1, false, false),
     Publish(1, false, false, {})]
  }

  /** After the second handler has opened the temporary file. */
  predicate Emptied(s: State, chunk: ChunkData, files: Files, ttl: int) {
    var temporary := TemporaryOf(chunk);
    s == Initial(files, ttl).(
      files := files[temporary := []],
      stores := map[1 := Store(chunk, Handle(Some(temporary), |chunk.payload|)),
                    2 := Store(chunk, Handle(Some(temporary), 0))])
  }

  lemma TwoStores(zstd: Decoder, chunk: ChunkData, record: PayloadRecord, now: int, files: Files, ttl: int)
    requires IndexInRange(chunk) && CrcsMatch(chunk) && chunk.payload != []
    ensures Emptied(Run(zstd, Initial(files, ttl), TornRun(chunk, record, now)[..3]), chunk, files, ttl)
  {
    hide Run, CrcsMatch, IndexInRange, StoreOpened, StoreWritten, Emptied;
    var s, steps := Initial(files, ttl), TornRun(chunk, record, now);
    RunNothing(zstd, s, steps);
    RunUpTo(zstd, s, steps, 0);
    RunUpTo(zstd, s, steps, 1);
    RunUpTo(zstd, s, steps, 2);
    var s1 := StoreOpened(s, 1, chunk);
    OpenApplied(zstd, s, 1, chunk);
    FirstIsWritten(chunk, files, ttl);
    assert Run(zstd, s, steps[..2]) == StoreWritten(s1, 1, |chunk.payload|);
    OpenApplied(zstd, StoreWritten(s1, 1, |chunk.payload|), 2, chunk);
  }

  lemma OpenApplied(zstd: Decoder, s: State, h: nat, chunk: ChunkData)
    requires IndexInRange(chunk) && CrcsMatch(chunk) && Idle(s, h)
    ensures Apply(zstd, s, OpenStore(h, chunk, true, true)) == StoreOpened(s, h, chunk)
  {
    hide CrcsMatch, IndexInRange;
  }

  lemma FirstIsWritten(chunk: ChunkData, files: Files, ttl: int)
    requires chunk.payload != []
    ensures var s1 := StoreOpened(Initial(files, ttl), 1, chunk);
            && 1 in s1.stores && CanWrite(s1.stores[1])
            && Idle(StoreWritten(s1, 1, |chunk.payload|), 2)
            && Emptied(StoreOpened(StoreWritten(s1, 1, |chunk.payload|), 2, chunk), chunk, files, ttl)
  {
    hide Overwritten;
    var s1, temporary := StoreOpened(Initial(files, ttl), 1, chunk), TemporaryOf(chunk);
    var s2 := StoreWritten(s1, 1, |chunk.payload|);
    assert s2.files - {temporary} == files - {temporary};
    assert s2.files[temporary := []] == files[temporary := []];
  }

  /** After the first handler has entered the chunk: the patch is empty. */
  predicate Torn(s: State, chunk: ChunkData, record: PayloadRecord) {
    && PatchOf(chunk) in s.files && s.files[PatchOf(chunk)] == []
    && s.issued == multiset{record} && 1 !in s.stores && s.jobs == map[] && s.published == []
  }

  lemma TornIsEntered(zstd: Decoder, chunk: ChunkData, name: string, now: int, files: Files, ttl: int, s: State)
    requires chunk.index == 0 && chunk.totalChunks == 1 && chunk.originalName == name && Emptied(s, chunk, files, ttl)
    ensures var s4 := Apply(zstd, s, CloseStore(1, true, true));
            Torn(Apply(zstd, s4, Register(chunk, now)), chunk, OnlyRecord(chunk.fileId, name))
  {
    hide Registered, RecordIfComplete;
    FirstOfOne(map[], chunk, now, ttl);
    var s4 := Apply(zstd, s, CloseStore(1, true, true));
    assert s4.files[PatchOf(chunk)] == [];
    assert s4.written == multiset{chunk};
    assert s4.jobs.Keys == {} && s4.payloads == map[];
  }

  lemma TornIsPublished(zstd: Decoder, chunk: ChunkData, record: PayloadRecord, s: State)
    requires Torn(s, chunk, record) && record == OnlyRecord(chunk.fileId, record.originalName)
    requires chunk.index == 0 && Idle(s, 1)
    ensures var s6 := Apply(zstd, s, Open(1, record, false, false));
            var s7 := Apply(zstd, s6, ReadChunk(1, false, false));
            Apply(zstd, s7, Publish(1, false, false, {})).published == [Publication(record, [])]
  {
    hide Relinked, Moved, Produced, RemoveDirectories;
    var part := Part(record.originalName);
    var s6 := Apply(zstd, s, Open(1, record, false, false));
    assert s6.jobs[1] == Job(record, Handle(Some(part), 0), 0, [], 0, true);
    assert Content(s6.files, record.chunkFiles[0]) == [];
    var s7 := Apply(zstd, s6, ReadChunk(1, false, false));
    assert s7.jobs[1] == Job(record, Handle(Some(part), 0), 1, [], 0, true);
    assert part in s7.files;
  }

  /** For every decoder and every non-empty data in one chunk, the run publishes the file as empty. */
  lemma TornPatchIsPublished(
      zstd: Decoder, id: string, name: string, header: seq<bv8>, data: seq<bv8>, now: int, files: Files, ttl: int)
    requires data != []
    ensures var o, chunk := Origin(id, [data]), Accepted(id, name, 0, 1, header, data);
            var steps := TornRun(chunk, OnlyRecord(id, name), now);
            && o.Data() == data && (forall step :: step in steps ==> Delivers(o, step))
            && Run(zstd, Initial(files, ttl), steps).published == [Publication(OnlyRecord(id, name), [])]
  {
    hide Run, Apply, Crc32.Crc, CrcsMatch, Emptied, Torn, Delivers, FromSplit;
    var chunk, record := Accepted(id, name, 0, 1, header, data), OnlyRecord(id, name);
    var s, steps := Initial(files, ttl), TornRun(chunk, record, now);
    DeliversTheData(id, name, header, data, now);
    AcceptedChunk(id, name, header, data);
    TwoStores(zstd, chunk, record, now, files, ttl);
    RunUpTo(zstd, s, steps, 3);
    RunUpTo(zstd, s, steps, 4);
    RunUpTo(zstd, s, steps, 5);
    RunUpTo(zstd, s, steps, 6);
    RunUpTo(zstd, s, steps, 7);
    assert steps[..8] == steps;
    TornIsEntered(zstd, chunk, name, now, files, ttl, Run(zstd, s, steps[..3]));
    var s5 := Run(zstd, s, steps[..5]);
    TornIsIdle(s5, chunk, record);
    TornIsPublished(zstd, chunk, record, s5);
  }

  lemma TornIsIdle(s: State, chunk: ChunkData, record: PayloadRecord)
    requires Torn(s, chunk, record)
    ensures Idle(s, 1)
  {}

  lemma AcceptedChunk(id: string, name: string, header: seq<bv8>, data: seq<bv8>)
    ensures IndexInRange(Accepted(id, name, 0, 1, header, data)) && CrcsMatch(Accepted(id, name, 0, 1, header, data))
  {
    hide Crc32.Crc;
  }

  lemma DeliversTheData(id: string, name: string, header: seq<bv8>, data: seq<bv8>, now: int)
    ensures var o, chunk := Origin(id, [data]), Accepted(id, name, 0, 1, header, data);
            o.Data() == data
            && forall step :: step in TornRun(chunk, OnlyRecord(id, name), now) ==> Delivers(o, step)
  {
    hide Crc32.Crc, ErrorDetection.Bits;
    var o, chunk := Origin(id, [data]), Accepted(id, name, 0, 1, header, data);
    assert o.Joined(1) == o.Joined(0) + data;
    assert ErrorDetection.AgreeOutside(chunk.payload, o.Piece(0), 0, 32);
    assert FromSplit(o, chunk);
  }
}
