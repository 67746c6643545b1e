/** Why no name in use may be another name followed by ".part", and why no name may be assembled twice
    at once; and that nothing else is needed. */
module NameClash {
  import opened Disk
  import opened Storage
  import opened Assembler
  import opened Relay
  import opened Server
  import opened Uploads
  import opened FinalFiles
  import Crc32

  /** A decoder that lets everything through unchanged. */
  function Verbatim(fed: seq<bv8>): Decoded {
    Decoded(if fed == [] then [] else [fed[|fed| - 1]], false, 0)
  }

  lemma {:induction false} VerbatimProduces(fed: seq<bv8>, chunk: seq<bv8>)
    ensures Produced(Verbatim, fed, chunk) == chunk
    decreases |chunk|
  {
    if chunk == [] {
    } else {
      VerbatimProduces(fed, chunk[..|chunk| - 1]);
      assert chunk == chunk[..|chunk| - 1] + [chunk[|chunk| - 1]];
    }
  }

  /** Two files of one chunk each are uploaded, one after the other. */
  function TwoUploads(c1: ChunkData, c2: ChunkData, now: int): seq<Step> {
    [OpenStore(1, c1, true, true), WriteStore(1, |c1.payload|, false), CloseStore(1, true, true), Register(c1, now),
     OpenStore(1, c2, true, true), WriteStore(1, |c2.payload|, false), CloseStore(1, true, true), Register(c2, now)]
  }

  /** They are assembled at the same time.  The second one is published while the first is still being
      assembled, and so takes the place of its part file. */
  function ClashRun(c1: ChunkData, c2: ChunkData, r1: PayloadRecord, r2: PayloadRecord, now: int): seq<Step> {
    TwoUploads(c1, c2, now) +
    [Open(1, r1, false, false), ReadChunk(1, false, false),
     Open(2, r2, false, false), ReadChunk(2, false, false),
     Publish(2, false, false, {}), Publish(1, false, false, {})]
  }

  /** They have one name.  The second assembly empties the part file before the first one publishes it. */
  function TwinRun(c1: ChunkData, c2: ChunkData, r1: PayloadRecord, r2: PayloadRecord, now: int): seq<Step> {
    TwoUploads(c1, c2, now) +
    [Open(1, r1, false, false), ReadChunk(1, false, false), Open(2, r2, false, false), Publish(1, false, false, {})]
  }

  /** Both files are complete, and nobody is assembling anything yet. */
  predicate BothReady(s: State, r1: PayloadRecord, r2: PayloadRecord, x: seq<bv8>, y: seq<bv8>) {
    && Alone(s) && s.issued == multiset{r1, r2} && s.published == []
    && r1.chunkFiles == [Some(Patch(r1.fileId, 0))] && r1.totalChunks == 1
    && r2.chunkFiles == [Some(Patch(r2.fileId, 0))] && r2.totalChunks == 1
    && r1.fileId != r2.fileId
    && Patch(r1.fileId, 0) in s.files && s.files[Patch(r1.fileId, 0)] == x
    && Patch(r2.fileId, 0) in s.files && s.files[Patch(r2.fileId, 0)] == y
  }

  lemma FourSteps(zstd: Decoder, s: State, steps: seq<Step>, k: nat, chunk: ChunkData, now: int)
    requires k + 4 <= |steps|
    requires steps[k] == OpenStore(1, chunk, true, true) && steps[k + 1] == WriteStore(1, |chunk.payload|, false)
    requires steps[k + 2] == CloseStore(1, true, true) && steps[k + 3] == Register(chunk, now)
    ensures Run(zstd, s, steps[..k + 4]) == UploadOne(zstd, Run(zstd, s, steps[..k]), 1, chunk, now)
  {
    hide Run, Apply;
    RunUpTo(zstd, s, steps, k);
    RunUpTo(zstd, s, steps, k + 1);
    RunUpTo(zstd, s, steps, k + 2);
    RunUpTo(zstd, s, steps, k + 3);
  }

  lemma BothUploaded(zstd: Decoder, c1: ChunkData, c2: ChunkData, steps: seq<Step>, now: int, files: Files, ttl: int)
    requires IndexInRange(c1) && CrcsMatch(c1) && c1.index == 0 && c1.totalChunks == 1
    requires IndexInRange(c2) && CrcsMatch(c2) && c2.index == 0 && c2.totalChunks == 1
    requires c1.fileId != c2.fileId && TwoUploads(c1, c2, now) <= steps
    ensures BothReady(Run(zstd, Initial(files, ttl), steps[..8]), OnlyRecord(c1.fileId, c1.originalName),
                      OnlyRecord(c2.fileId, c2.originalName), c1.payload, c2.payload)
  {
    hide Run, UploadOne, CrcsMatch, OnlyRecord, BothReady;
    var s := Initial(files, ttl);
    RunNothing(zstd, s, steps);
    FourSteps(zstd, s, steps, 0, c1, now);
    FourSteps(zstd, s, steps, 4, c2, now);
    OnlyUpload(zstd, s, c1, now);
    var s4 := Run(zstd, s, steps[..4]);
    OnlyUpload(zstd, s4, c2, now);
    TwoFilesAreReady(s, s4, Run(zstd, s, steps[..8]), c1, c2);
  }

  /** What two uploads, one after the other, lead to. */
  lemma TwoFilesAreReady(s: State, s4: State, s8: State, c1: ChunkData, c2: ChunkData)
    requires Alone(s) && s.issued == multiset{} && s.published == []
    requires c1.index == c2.index == 0 && c1.fileId != c2.fileId
    requires s4 == s.(files := (s.files - {TemporaryOf(c1)})[PatchOf(c1) := c1.payload], payloads := s4.payloads,
                      issued := s.issued + multiset{OnlyRecord(c1.fileId, c1.originalName)})
    requires s8 == s4.(files := (s4.files - {TemporaryOf(c2)})[PatchOf(c2) := c2.payload], payloads := s8.payloads,
                       issued := s4.issued + multiset{OnlyRecord(c2.fileId, c2.originalName)})
    ensures BothReady(s8, OnlyRecord(c1.fileId, c1.originalName), OnlyRecord(c2.fileId, c2.originalName),
                      c1.payload, c2.payload)
  {}

  /** Uploading a file of one chunk, with nothing else under way. */
  lemma OnlyUpload(zstd: Decoder, s: State, chunk: ChunkData, now: int)
    requires Alone(s) && s.written == multiset{} && IndexInRange(chunk) && CrcsMatch(chunk)
    requires chunk.index == 0 && chunk.totalChunks == 1 && chunk.fileId !in s.payloads
    ensures var s' := UploadOne(zstd, s, 1, chunk, now);
            && s' == s.(files := (s.files - {TemporaryOf(chunk)})[PatchOf(chunk) := chunk.payload],
                        payloads := s'.payloads,
                        issued := s.issued + multiset{OnlyRecord(chunk.fileId, chunk.originalName)})
            && s'.payloads.Keys == s.payloads.Keys + {chunk.fileId}
  {
    hide UploadOne, CrcsMatch, RecordIfComplete, Updated;
    UploadedAtOnce(zstd, s, 1, chunk, now);
    FirstOfOne(s.payloads, chunk, now, s.defaultTtl);
  }

  /** After opening and reading the only chunk of a record. */
  lemma OpenedAndRead(s: State, h: nat, record: PayloadRecord, data: seq<bv8>)
    requires Idle(s, h) && record in s.issued && record.chunkFiles == [Some(Patch(record.fileId, 0))]
    requires record.totalChunks == 1 && Patch(record.fileId, 0) in s.files && s.files[Patch(record.fileId, 0)] == data
    requires data != []
    ensures Apply(Verbatim, Apply(Verbatim, s, Open(h, record, false, false)), ReadChunk(h, false, false)) ==
              s.(issued := s.issued - multiset{record}, files := s.files[Part(record.originalName) := data],
                 jobs := s.jobs[h := Job(record, Handle(Some(Part(record.originalName)), |data|), 1, data, 0, true)])
  {
    hide Overwritten, Produced;
    var part := Part(record.originalName);
    var s1 := s.(issued := s.issued - multiset{record}, files := s.files[part := []],
                 jobs := s.jobs[h := Job(record, Handle(Some(part), 0), 0, [], 0, true)]);
    assert Apply(Verbatim, s, Open(h, record, false, false)) == s1;
    OnlyChunkRead(s1, h, record, data);
    assert s1.files[part := data] == s.files[part := data];
  }

  lemma OnlyChunkRead(s: State, h: nat, record: PayloadRecord, data: seq<bv8>)
    requires h in s.jobs && s.jobs[h] == Job(record, Handle(Some(Part(record.originalName)), 0), 0, [], 0, true)
    requires record.chunkFiles == [Some(Patch(record.fileId, 0))] && data != []
    requires Part(record.originalName) in s.files && s.files[Part(record.originalName)] == []
    requires Patch(record.fileId, 0) in s.files && s.files[Patch(record.fileId, 0)] == data
    ensures Apply(Verbatim, s, ReadChunk(h, false, false)) ==
              s.(files := s.files[Part(record.originalName) := data],
                 jobs := s.jobs[h := Job(record, Handle(Some(Part(record.originalName)), |data|), 1, data, 0, true)])
  {
    hide Overwritten, Produced;
    VerbatimProduces([], data);
    WriteAtTheEnd([], data);
    assert [] + data == data;
  }

  /** Publishing the second file moves it over the part file of the first. */
  lemma SecondPublished(s: State, r1: PayloadRecord, r2: PayloadRecord, job1: Job, y: seq<bv8>)
    requires s.jobs == map[1 := job1, 2 := Job(r2, Handle(Some(Part(r2.originalName)), |y|), 1, y, 0, true)]
    requires r2.originalName == r1.originalName + PART && job1.record == r1 && |r2.chunkFiles| == 1
    requires Part(r2.originalName) in s.files && s.files[Part(r2.originalName)] == y
    ensures var s' := Apply(Verbatim, s, Publish(2, false, false, {}));
            && s'.jobs.Keys == {1} && s'.jobs[1] == job1.(file := s'.jobs[1].file)
            && s'.published == s.published + [Publication(r2, y)]
            && Part(r1.originalName) in s'.files && s'.files[Part(r1.originalName)] == y
  {
    hide AfterRemoval, AfterRenaming, Relinked, Moved;
    var part, final := Part(r2.originalName), Final(r2.originalName);
    var ended := s.(jobs := s.jobs - {2});
    var moved := Moved(ended, part, final);
    MovedJob(ended, part, final);
    RelinkedJob(moved, RemoveDirectories(moved.files, {r2.fileId}, {}));
    MovedKeeps(ended, part, final);
    RelinkedKeeps(moved, RemoveDirectories(moved.files, {r2.fileId}, {}));
  }

  lemma MovedJob(s: State, from: Path, to: Path)
    requires from in s.files && s.jobs.Keys == {1}
    ensures var jobs := Moved(s, from, to).jobs;
            jobs.Keys == {1} && jobs[1] == s.jobs[1].(file := jobs[1].file)
  {}

  lemma RelinkedJob(s: State, files: Files)
    requires s.jobs.Keys == {1}
    ensures var jobs := Relinked(s, files).jobs;
            jobs.Keys == {1} && jobs[1] == s.jobs[1].(file := jobs[1].file)
  {}

  lemma FirstPublished(s: State, r1: PayloadRecord, x: seq<bv8>, y: seq<bv8>)
    requires 1 in s.jobs && s.jobs[1] == Job(r1, s.jobs[1].file, 1, x, 0, true) && |r1.chunkFiles| == 1
    requires Part(r1.originalName) in s.files && s.files[Part(r1.originalName)] == y
    ensures var s' := Apply(Verbatim, s, Publish(1, false, false, {}));
            && s'.published == s.published + [Publication(r1, x)]
            && Final(r1.originalName) in s'.files && s'.files[Final(r1.originalName)] == y
  {
    hide AfterRemoval, AfterRenaming;
  }

  /** After both part files have been written. */
  predicate BothWritten(s: State, r1: PayloadRecord, r2: PayloadRecord, x: seq<bv8>, y: seq<bv8>) {
    && s.jobs == map[1 := Job(r1, Handle(Some(Part(r1.originalName)), |x|), 1, x, 0, true),
                     2 := Job(r2, Handle(Some(Part(r2.originalName)), |y|), 1, y, 0, true)]
    && s.published == [] && Part(r2.originalName) in s.files && s.files[Part(r2.originalName)] == y
  }

  lemma FirstWritten(s: State, r1: PayloadRecord, r2: PayloadRecord, x: seq<bv8>, y: seq<bv8>)
    requires BothReady(s, r1, r2, x, y) && x != []
    ensures var s' := Apply(Verbatim, Apply(Verbatim, s, Open(1, r1, false, false)), ReadChunk(1, false, false));
            && s' == s.(issued := multiset{r2}, files := s.files[Part(r1.originalName) := x],
                        jobs := map[1 := Job(r1, Handle(Some(Part(r1.originalName)), |x|), 1, x, 0, true)])
  {
    hide Apply;
    OpenedAndRead(s, 1, r1, x);
    assert s.issued - multiset{r1} == multiset{r2};
  }

  lemma SecondWritten(s: State, r1: PayloadRecord, r2: PayloadRecord, x: seq<bv8>, y: seq<bv8>)
    requires BothReady(s, r1, r2, x, y) && r2.originalName != r1.originalName && x != [] && y != []
    ensures var s10 := Apply(Verbatim, Apply(Verbatim, s, Open(1, r1, false, false)), ReadChunk(1, false, false));
            var s12 := Apply(Verbatim, Apply(Verbatim, s10, Open(2, r2, false, false)), ReadChunk(2, false, false));
            && s10.jobs.Keys == {1} && s10.jobs[1].record == r1
            && BothWritten(s12, r1, r2, x, y)
  {
    hide Apply;
    FirstWritten(s, r1, r2, x, y);
    var s10 := Apply(Verbatim, Apply(Verbatim, s, Open(1, r1, false, false)), ReadChunk(1, false, false));
    OpenedAndRead(s10, 2, r2, y);
  }

  lemma BothPublished(s: State, r1: PayloadRecord, r2: PayloadRecord, x: seq<bv8>, y: seq<bv8>)
    requires BothWritten(s, r1, r2, x, y) && r2.originalName == r1.originalName + PART
    requires |r1.chunkFiles| == 1 && |r2.chunkFiles| == 1
    ensures var s' := Apply(Verbatim, Apply(Verbatim, s, Publish(2, false, false, {})), Publish(1, false, false, {}));
            && s'.published == [Publication(r2, y), Publication(r1, x)]
            && Final(r1.originalName) in s'.files && s'.files[Final(r1.originalName)] == y
  {
    hide Apply;
    SecondPublished(s, r1, r2, s.jobs[1], y);
    FirstPublished(Apply(Verbatim, s, Publish(2, false, false, {})), r1, x, y);
  }

  lemma BothAssembled(
      s: State, steps: seq<Step>, s0: State, r1: PayloadRecord, r2: PayloadRecord, x: seq<bv8>, y: seq<bv8>)
    requires |steps| == 14 && s == Run(Verbatim, s0, steps[..8]) && BothReady(s, r1, r2, x, y) && x != [] && y != []
    requires r2.originalName == r1.originalName + PART
    requires steps[8] == Open(1, r1, false, false) && steps[9] == ReadChunk(1, false, false)
    requires steps[10] == Open(2, r2, false, false) && steps[11] == ReadChunk(2, false, false)
    requires steps[12] == Publish(2, false, false, {}) && steps[13] == Publish(1, false, false, {})
    ensures var s' := Run(Verbatim, s0, steps);
            && s'.published == [Publication(r2, y), Publication(r1, x)]
            && Final(r1.originalName) in s'.files && s'.files[Final(r1.originalName)] == y
    ensures var jobs := Run(Verbatim, s0, steps[..10]).jobs;
            jobs.Keys == {1} && jobs[1].record == r1
  {
    hide Run, Apply, BothWritten;
    RunUpTo(Verbatim, s0, steps, 8);
    RunUpTo(Verbatim, s0, steps, 9);
    RunUpTo(Verbatim, s0, steps, 10);
    RunUpTo(Verbatim, s0, steps, 11);
    RunUpTo(Verbatim, s0, steps, 12);
    RunUpTo(Verbatim, s0, steps, 13);
    assert steps[..14] == steps;
    SecondWritten(s, r1, r2, x, y);
    BothPublished(Run(Verbatim, s0, steps[..12]), r1, r2, x, y);
  }

  lemma ClashRunIsApart(c1: ChunkData, c2: ChunkData, r1: PayloadRecord, r2: PayloadRecord, now: int, s: State)
    requires r1.originalName != r2.originalName
    requires Run(Verbatim, s, ClashRun(c1, c2, r1, r2, now)[..8]).jobs == map[]
    requires var jobs := Run(Verbatim, s, ClashRun(c1, c2, r1, r2, now)[..10]).jobs;
             jobs.Keys == {1} && jobs[1].record == r1
    ensures OneAssemblyAtATime(Verbatim, s, ClashRun(c1, c2, r1, r2, now))
  {
    hide Run;
    var steps := ClashRun(c1, c2, r1, r2, now);
    forall k | 0 <= k < |steps|
      ensures AssembliesApart(Run(Verbatim, s, steps[..k]), steps[k])
    {
      if k == 8 || k == 10 {
        assert AssembliesApart(Run(Verbatim, s, steps[..8]), steps[8]);
        assert AssembliesApart(Run(Verbatim, s, steps[..10]), steps[10]);
      } else {
        assert !steps[k].Open?;
      }
    }
  }

  /** With two such names, chunks every handler accepts, and one assembly of a name at a time: the
      content of one file is published as the other. */
  lemma ClashPublishesTheOther(
      name: string, id1: string, id2: string, header1: seq<bv8>, header2: seq<bv8>, x: seq<bv8>, y: seq<bv8>,
      now: int, files: Files, ttl: int)
    requires id1 != id2 && x != [] && y != []
    ensures var c1, c2 := Accepted(id1, name, 0, 1, header1, x), Accepted(id2, name + PART, 0, 1, header2, y);
            var steps := ClashRun(c1, c2, OnlyRecord(id1, name), OnlyRecord(id2, name + PART), now);
            var s := Run(Verbatim, Initial(files, ttl), steps);
            && (forall step :: step in steps ==> UsesNames({name, name + PART}, step))
            && OneAssemblyAtATime(Verbatim, Initial(files, ttl), steps)
            && LastFed(s.published, name) == Some(x)
            && Final(name) in s.files && s.files[Final(name)] == y
  {
    hide Run, Crc32.Crc, BothReady, OneAssemblyAtATime;
    var c1, c2 := Accepted(id1, name, 0, 1, header1, x), Accepted(id2, name + PART, 0, 1, header2, y);
    var r1, r2 := OnlyRecord(id1, name), OnlyRecord(id2, name + PART);
    var s0, steps := Initial(files, ttl), ClashRun(c1, c2, r1, r2, now);
    BothUploaded(Verbatim, c1, c2, steps, now, files, ttl);
    var s8 := Run(Verbatim, s0, steps[..8]);
    ReadyIsAlone(s8, r1, r2, x, y);
    BothAssembled(s8, steps, s0, r1, r2, x, y);
    assert |name + PART| != |name|;
    ClashRunIsApart(c1, c2, r1, r2, now, s0);
  }

  lemma ReadyIsAlone(s: State, r1: PayloadRecord, r2: PayloadRecord, x: seq<bv8>, y: seq<bv8>)
    requires BothReady(s, r1, r2, x, y)
    ensures Alone(s)
  {}

  // ----- One name assembled twice at once -----

  lemma TwinsPublished(s: State, r1: PayloadRecord, r2: PayloadRecord, x: seq<bv8>, y: seq<bv8>)
    requires BothReady(s, r1, r2, x, y) && x != [] && r1.originalName == r2.originalName
    ensures var s10 := Apply(Verbatim, Apply(Verbatim, s, Open(1, r1, false, false)), ReadChunk(1, false, false));
            var s12 := Apply(Verbatim, Apply(Verbatim, s10, Open(2, r2, false, false)), Publish(1, false, false, {}));
            && s12.published == [Publication(r1, x)]
            && Final(r1.originalName) in s12.files && s12.files[Final(r1.originalName)] == []
  {
    hide Apply;
    FirstWritten(s, r1, r2, x, y);
    var s10 := Apply(Verbatim, Apply(Verbatim, s, Open(1, r1, false, false)), ReadChunk(1, false, false));
    SecondOpened(s10, r2);
    FirstPublished(Apply(Verbatim, s10, Open(2, r2, false, false)), r1, x, []);
  }

  lemma SecondOpened(s: State, record: PayloadRecord)
    requires Idle(s, 2) && record in s.issued && |record.chunkFiles| == record.totalChunks
    ensures var s' := Apply(Verbatim, s, Open(2, record, false, false));
            && Part(record.originalName) in s'.files && s'.files[Part(record.originalName)] == []
            && (1 in s.jobs ==> 1 in s'.jobs && s'.jobs[1] == s.jobs[1]) && s'.published == s.published
  {}

  /** When one name is assembled by two handlers at once, a file can be published that is not the
      decompression of what its publication was fed, though every call succeeds, every chunk is
      stored on its own, and every handler accepts its chunk. */
  lemma TwinAssembliesSpoilTheFile(
      name: string, id1: string, id2: string, header1: seq<bv8>, header2: seq<bv8>, x: seq<bv8>, y: seq<bv8>,
      now: int, files: Files, ttl: int)
    requires id1 != id2 && x != []
    ensures var c1, c2 := Accepted(id1, name, 0, 1, header1, x), Accepted(id2, name, 0, 1, header2, y);
            var steps := TwinRun(c1, c2, OnlyRecord(id1, name), OnlyRecord(id2, name), now);
            var s := Run(Verbatim, Initial(files, ttl), steps);
            && LastFed(s.published, name) == Some(x) && Output(Verbatim, x) == x
            && Final(name) in s.files && s.files[Final(name)] == []
  {
    hide Run, Apply, Crc32.Crc, BothReady;
    var c1, c2 := Accepted(id1, name, 0, 1, header1, x), Accepted(id2, name, 0, 1, header2, y);
    var r1, r2 := OnlyRecord(id1, name), OnlyRecord(id2, name);
    var s0, steps := Initial(files, ttl), TwinRun(c1, c2, r1, r2, now);
    BothUploaded(Verbatim, c1, c2, steps, now, files, ttl);
    RunUpTo(Verbatim, s0, steps, 8);
    RunUpTo(Verbatim, s0, steps, 9);
    RunUpTo(Verbatim, s0, steps, 10);
    RunUpTo(Verbatim, s0, steps, 11);
    assert steps[..12] == steps;
    TwinsPublished(Run(Verbatim, s0, steps[..8]), r1, r2, x, y);
    VerbatimProduces([], x);
  }

  // ----- The exact condition -----

  /** In every run, for every decoder and every disk, the final files of these names are as published. */
  ghost predicate AlwaysAsPublished(names: set<string>) {
    forall zstd: Decoder, files: Files, ttl: int, steps: seq<Step> ::
      && (forall step :: step in steps ==> UsesNames(names, step))
      && OneAssemblyAtATime(zstd, Initial(files, ttl), steps) ==>
        FinalsAsPublished(zstd, files, Run(zstd, Initial(files, ttl), steps), names)
  }

  /** The final files of the names in use always are the decompression of what their last publication
      was fed, if and only if no name in use is another one followed by ".part". */
  lemma FinalFilesAreAsPublished(names: set<string>)
    ensures AlwaysAsPublished(names) <==> NamesApart(names)
  {
    hide Run, UsesNames, OneAssemblyAtATime, FinalsAsPublished;
    if NamesApart(names) {
      forall zstd: Decoder, files: Files, ttl: int, steps: seq<Step> |
        && (forall step :: step in steps ==> UsesNames(names, step))
        && OneAssemblyAtATime(zstd, Initial(files, ttl), steps)
        ensures FinalsAsPublished(zstd, files, Run(zstd, Initial(files, ttl), steps), names)
      {
        RunIsOrderly(zstd, names, files, ttl, steps);
        OrderlyFinals(zstd, files, names, Run(zstd, Initial(files, ttl), steps));
      }
    } else {
      var m, n :| m in names && n in names && n == m + PART;
      ClashBreaksIt(names, m);
    }
  }

  lemma OrderlyFinals(zstd: Decoder, initial: Files, names: set<string>, s: State)
    requires Orderly(zstd, initial, names, s)
    ensures FinalsAsPublished(zstd, initial, s, names)
  {}

  lemma ClashBreaksIt(names: set<string>, name: string)
    requires name in names && name + PART in names
    ensures !AlwaysAsPublished(names)
  {
    hide Run, OneAssemblyAtATime, Crc32.Crc;
    var c1, c2 := Accepted("1", name, 0, 1, [], [1]), Accepted("2", name + PART, 0, 1, [], [2]);
    var steps := ClashRun(c1, c2, OnlyRecord("1", name), OnlyRecord("2", name + PART), 0);
    var s := Run(Verbatim, Initial(map[], 0), steps);
    ClashPublishesTheOther(name, "1", "2", [], [], [1], [2], 0, map[], 0);
    VerbatimProduces([], [1]);
    assert !FinalFileAsPublished(Verbatim, map[], s, name);
  }
}
