/** The server as a transition system: any number of handlers at work on one disk. */
module Relay {
  import opened Disk
  import opened Storage
  import opened Assembler

  datatype Publication = Publication(record: PayloadRecord, fed: seq<bv8>)

  /** A chunk being written to its temporary file. */
  datatype Store = Store(chunk: ChunkData, file: Handle)

  /** A record being assembled: its part file, how many chunks have been read, what has gone into the
      decoder, how much that still expects, and whether all went well so far. */
  datatype Job = Job(record: PayloadRecord, file: Handle, next: nat, input: seq<bv8>, pending: nat, ok: bool)

  /** The server: its disk, its table of files under way, and what its handlers hold in hand.  A
      handler is a number; it may be writing a chunk, have written one and not entered it in the
      table, hold a complete record, be assembling one, or have published one and not marked it so.
      `published` is the history of all publications. */
  datatype State = State(
    files: Files, payloads: Payloads, defaultTtl: int,
    stores: map<nat, Store>, written: multiset<ChunkData>, issued: multiset<PayloadRecord>,
    jobs: map<nat, Job>, unmarked: multiset<string>, published: seq<Publication>)

  /** A chunk arrives and its temporary file is opened, written in pieces, and closed under its final
      name; the chunk is entered in the table; the part file of a complete record is opened, its
      chunks are read one by one, it is published and then marked as published.  The control channel
      changes the time to live; the sweep removes expired uploads and old files. */
  datatype Step =
    | OpenStore(h: nat, chunk: ChunkData, dirOk: bool, openOk: bool)
    | WriteStore(h: nat, size: nat, fails: bool)
    | CloseStore(h: nat, syncOk: bool, renameOk: bool)
    | Register(chunk: ChunkData, now: int)
    | Open(h: nat, record: PayloadRecord, openFails: bool, allocFails: bool)
    | ReadChunk(h: nat, unreadable: bool, unwritable: bool)
    | Publish(h: nat, syncFails: bool, renameFails: bool, leftover: set<Path>)
    | Mark(fileId: string)
    | UpdateTtl(ttl: int)
    | Cleanup(now: int, left: set<Path>)
    | RemoveOld(aged: set<string>)

  // ----- Files, and the handles open on them -----

  /** Some files have been removed. */
  function Relinked(s: State, files: Files): State {
    s.(files := files,
       stores := map h | h in s.stores :: s.stores[h].(file := AfterRemoval(s.stores[h].file, files)),
       jobs := map h | h in s.jobs :: s.jobs[h].(file := AfterRemoval(s.jobs[h].file, files)))
  }

  /** A file has been renamed. */
  function Moved(s: State, from: Path, to: Path): State
    requires from in s.files
  {
    s.(files := Renamed(s.files, from, to),
       stores := map h | h in s.stores :: s.stores[h].(file := AfterRenaming(s.stores[h].file, from, to)),
       jobs := map h | h in s.jobs :: s.jobs[h].(file := AfterRenaming(s.jobs[h].file, from, to)))
  }

  // ----- Storing a chunk -----

  predicate IndexInRange(chunk: ChunkData) {
    chunk.totalChunks != 0 && chunk.index < chunk.totalChunks
  }

  predicate Idle(s: State, h: nat) { h !in s.stores && h !in s.jobs }

  function TemporaryOf(chunk: ChunkData): Path { Temporary(chunk.fileId, chunk.index) }

  function PatchOf(chunk: ChunkData): Path { Patch(chunk.fileId, chunk.index) }

  function StoreOpened(s: State, h: nat, chunk: ChunkData): State {
    s.(files := s.files[TemporaryOf(chunk) := []],
       stores := s.stores[h := Store(chunk, Handle(Some(TemporaryOf(chunk)), 0))])
  }

  predicate CanWrite(store: Store) { store.file.offset < |store.chunk.payload| }

  function StoreWritten(s: State, h: nat, size: nat): State
    requires h in s.stores && CanWrite(s.stores[h])
  {
    var store := s.stores[h];
    var offset, payload := store.file.offset, store.chunk.payload;
    var end := if offset + size < |payload| then offset + size else |payload|;
    s.(files := WriteTo(s.files, store.file, payload[offset..end]),
       stores := s.stores[h := store.(file := store.file.(offset := end))])
  }

  /** The store is given up, and what is found under its temporary name removed. */
  function StoreFailed(s: State, h: nat): State
    requires h in s.stores
  {
    Relinked(s.(stores := s.stores - {h}), s.files - {TemporaryOf(s.stores[h].chunk)})
  }

  function StoreClosed(s: State, h: nat, renameOk: bool): State
    requires h in s.stores
  {
    var chunk := s.stores[h].chunk;
    var ended := s.(stores := s.stores - {h});
    if !renameOk || TemporaryOf(chunk) !in s.files then ended
    else Moved(ended, TemporaryOf(chunk), PatchOf(chunk)).(written := s.written + multiset{chunk})
  }

  predicate Issues(s: State, chunk: ChunkData, now: int) {
    && chunk in s.written && chunk.index < chunk.totalChunks
    && RecordIfComplete(Registered(s.payloads, chunk, now, s.defaultTtl)[chunk.fileId]).Some?
  }

  function ChunkEntered(s: State, chunk: ChunkData, now: int): State
    requires chunk.index < chunk.totalChunks
  {
    var payloads := Registered(s.payloads, chunk, now, s.defaultTtl);
    s.(payloads := payloads, written := s.written - multiset{chunk},
       issued := if Issues(s, chunk, now) then s.issued + multiset{payloads[chunk.fileId].record} else s.issued)
  }

  // ----- Assembling a record -----

  function Opened(s: State, h: nat, record: PayloadRecord, openFails: bool, allocFails: bool): State {
    var taken := s.(issued := s.issued - multiset{record});
    var part := Part(record.originalName);
    if |record.chunkFiles| != record.totalChunks || openFails then taken
    else if allocFails then Relinked(taken, s.files - {part})
    else
      taken.(files := s.files[part := []],
             jobs := s.jobs[h := Job(record, Handle(Some(part), 0), 0, [], 0, true)])
  }

  predicate CanRead(job: Job) { job.ok && job.next < |job.record.chunkFiles| }

  function ChunkRead(zstd: Decoder, s: State, h: nat, unreadable: bool, unwritable: bool): State
    requires h in s.jobs && CanRead(s.jobs[h])
  {
    var job := s.jobs[h];
    var slot := job.record.chunkFiles[job.next];
    var content := Content(s.files, slot);
    var input := job.input + content;
    var produced := Produced(zstd, job.input, content);
    if !Present(s.files, slot) || unreadable then s.(jobs := s.jobs[h := job.(ok := false)])
    else if content == [] then s.(jobs := s.jobs[h := job.(next := job.next + 1, input := input)])
    else if zstd(input).error || unwritable then s.(jobs := s.jobs[h := job.(ok := false)])
    else
      s.(files := WriteTo(s.files, job.file, produced),
         jobs := s.jobs[h := job.(next := job.next + 1, input := input, pending := zstd(input).pending,
                                  file := job.file.(offset := job.file.offset + |produced|))])
  }

  function JobEnded(s: State, h: nat, syncFails: bool, renameFails: bool, leftover: set<Path>): State
    requires h in s.jobs
  {
    var job := s.jobs[h];
    var part, final := Part(job.record.originalName), Final(job.record.originalName);
    var ended := s.(jobs := s.jobs - {h});
    if !job.ok || job.pending != 0 || syncFails then Relinked(ended, s.files - {part})
    else if renameFails || part !in s.files then ended
    else
      var moved := Moved(ended, part, final);
      Relinked(moved, RemoveDirectories(moved.files, {job.record.fileId}, leftover))
      .(unmarked := s.unmarked + multiset{job.record.fileId},
        published := s.published + [Publication(job.record, job.input)])
  }

  // ----- Steps and runs -----

  /** One step; a step no handler is ready for changes nothing. */
  function Apply(zstd: Decoder, s: State, step: Step): State {
    match step
    case OpenStore(h, chunk, dirOk, openOk) =>
      if Idle(s, h) && IndexInRange(chunk) && CrcsMatch(chunk) && dirOk && openOk then StoreOpened(s, h, chunk) else s
    case WriteStore(h, size, fails) =>
      if h !in s.stores || !CanWrite(s.stores[h]) then s
      else if fails then StoreFailed(s, h)
      else StoreWritten(s, h, size)
    case CloseStore(h, syncOk, renameOk) =>
      if h !in s.stores || CanWrite(s.stores[h]) then s
      else if !syncOk then StoreFailed(s, h)
      else StoreClosed(s, h, renameOk)
    case Register(chunk, now) =>
      if chunk in s.written && chunk.index < chunk.totalChunks then ChunkEntered(s, chunk, now) else s
    case Open(h, record, openFails, allocFails) =>
      if Idle(s, h) && record in s.issued then Opened(s, h, record, openFails, allocFails) else s
    case ReadChunk(h, unreadable, unwritable) =>
      if h in s.jobs && CanRead(s.jobs[h]) then ChunkRead(zstd, s, h, unreadable, unwritable) else s
    case Publish(h, syncFails, renameFails, leftover) =>
      if h in s.jobs && !CanRead(s.jobs[h]) then JobEnded(s, h, syncFails, renameFails, leftover) else s
    case Mark(fileId) =>
      if fileId in s.unmarked
      then s.(unmarked := s.unmarked - multiset{fileId}, payloads := s.payloads - {fileId}) else s
    case UpdateTtl(ttl) => s.(defaultTtl := ttl, payloads := WithTtl(s.payloads, ttl))
    case Cleanup(now, left) =>
      Relinked(s.(payloads := WithoutExpired(s.payloads, now)),
               RemoveDirectories(s.files, ExpiredIds(s.payloads, now), left))
    case RemoveOld(aged) => Relinked(s, WithoutOld(s.files, aged))
  }

  /** Part files are not removed for their age. */
  function WithoutOld(files: Files, aged: set<string>): Files {
    map p | p in files && !(p.Stored? && p.name in aged && !EndsInPart(p.name)) :: files[p]
  }

  function Run(zstd: Decoder, s: State, steps: seq<Step>): State
    decreases |steps|
  {
    if steps == [] then s else Apply(zstd, Run(zstd, s, steps[..|steps| - 1]), steps[|steps| - 1])
  }

  lemma RunUpTo(zstd: Decoder, s: State, steps: seq<Step>, k: nat)
    requires k < |steps|
    ensures Run(zstd, s, steps[..k + 1]) == Apply(zstd, Run(zstd, s, steps[..k]), steps[k])
  {
    assert steps[..k + 1][..k] == steps[..k];
  }

  lemma RunNothing(zstd: Decoder, s: State, steps: seq<Step>)
    ensures Run(zstd, s, steps[..0]) == s
  {}

  /** The server when it starts: nothing in memory, anything on its disk. */
  function Initial(files: Files, defaultTtl: int): State {
    State(files, map[], defaultTtl, map[], multiset{}, multiset{}, map[], multiset{}, [])
  }

  // ----- What a step leaves alone -----

  lemma RelinkedKeeps(s: State, files: Files)
    ensures var s' := Relinked(s, files);
            s' == s.(files := files, stores := s'.stores, jobs := s'.jobs)
  {}

  lemma MovedKeeps(s: State, from: Path, to: Path)
    requires from in s.files
    ensures var s' := Moved(s, from, to);
            s' == s.(files := Renamed(s.files, from, to), stores := s'.stores, jobs := s'.jobs)
  {}

  lemma StoresFrame(zstd: Decoder, s: State, step: Step)
    requires step.OpenStore? || step.WriteStore? || step.CloseStore?
    ensures var s' := Apply(zstd, s, step);
            && s' == s.(files := s'.files, stores := s'.stores, jobs := s'.jobs, written := s'.written)
            && (|| s'.written == s.written
                || (step.h in s.stores && s'.written == s.written + multiset{s.stores[step.h].chunk}))
  {
    hide Relinked, Moved, WriteTo, CrcsMatch, IndexInRange, CanWrite;
    if step.h in s.stores {
      var ended, chunk := s.(stores := s.stores - {step.h}), s.stores[step.h].chunk;
      RelinkedKeeps(ended, s.files - {TemporaryOf(chunk)});
      if TemporaryOf(chunk) in s.files {
        MovedKeeps(ended, TemporaryOf(chunk), PatchOf(chunk));
      }
    }
  }

  lemma OpenFrame(s: State, h: nat, record: PayloadRecord, openFails: bool, allocFails: bool)
    ensures var s' := Opened(s, h, record, openFails, allocFails);
            s' == s.(files := s'.files, stores := s'.stores, jobs := s'.jobs, issued := s'.issued)
  {
    hide Relinked;
    RelinkedKeeps(s.(issued := s.issued - multiset{record}), s.files - {Part(record.originalName)});
  }

  lemma PublishFrame(s: State, h: nat, syncFails: bool, renameFails: bool, leftover: set<Path>)
    requires h in s.jobs
    ensures var s' := JobEnded(s, h, syncFails, renameFails, leftover);
            s' == s.(files := s'.files, stores := s'.stores, jobs := s'.jobs,
                     unmarked := s'.unmarked, published := s'.published)
  {
    hide Relinked, Moved, RemoveDirectories;
    var record := s.jobs[h].record;
    var ended := s.(jobs := s.jobs - {h});
    RelinkedKeeps(ended, s.files - {Part(record.originalName)});
    if Part(record.originalName) in s.files {
      MovedKeeps(ended, Part(record.originalName), Final(record.originalName));
      var moved := Moved(ended, Part(record.originalName), Final(record.originalName));
      RelinkedKeeps(moved, RemoveDirectories(moved.files, {record.fileId}, leftover));
    }
  }

  lemma JobsFrame(zstd: Decoder, s: State, step: Step)
    requires step.Open? || step.ReadChunk? || step.Publish?
    ensures var s' := Apply(zstd, s, step);
            s' == s.(files := s'.files, stores := s'.stores, jobs := s'.jobs, issued := s'.issued,
                     unmarked := s'.unmarked, published := s'.published)
  {
    hide Opened, JobEnded, WriteTo, Content, Present, Produced, CanRead;
    match step
    case Open(h, record, openFails, allocFails) => OpenFrame(s, h, record, openFails, allocFails);
    case ReadChunk(_, _, _) => {}
    case Publish(h, syncFails, renameFails, leftover) =>
      if h in s.jobs {
        PublishFrame(s, h, syncFails, renameFails, leftover);
      }
  }

  /** Handles and endings aside, the stores are the same. */
  predicate SameChunks(stores: map<nat, Store>, stores': map<nat, Store>) {
    forall h :: h in stores' ==> h in stores && stores'[h].chunk == stores[h].chunk
  }

  lemma RelinkedChunks(s: State, files: Files)
    ensures SameChunks(s.stores, Relinked(s, files).stores)
  {}

  lemma MovedChunks(s: State, from: Path, to: Path)
    requires from in s.files
    ensures SameChunks(s.stores, Moved(s, from, to).stores)
  {}

  lemma ChunksAfterStore(zstd: Decoder, s: State, step: Step)
    requires step.OpenStore? || step.WriteStore? || step.CloseStore?
    ensures forall h :: h in Apply(zstd, s, step).stores ==>
              (h in s.stores && Apply(zstd, s, step).stores[h].chunk == s.stores[h].chunk)
              || (step.OpenStore? && Apply(zstd, s, step).stores[h].chunk == step.chunk)
  {
    hide Relinked, Moved, WriteTo, CrcsMatch, IndexInRange, CanWrite;
    if step.h in s.stores {
      var ended, chunk := s.(stores := s.stores - {step.h}), s.stores[step.h].chunk;
      RelinkedChunks(ended, s.files - {TemporaryOf(chunk)});
      if TemporaryOf(chunk) in s.files {
        MovedChunks(ended, TemporaryOf(chunk), PatchOf(chunk));
      }
    }
  }

  lemma NothingStored(stores: map<nat, Store>)
    ensures SameChunks(stores, stores)
  {}

  lemma ChunksAfterOpen(s: State, h: nat, record: PayloadRecord, openFails: bool, allocFails: bool)
    ensures SameChunks(s.stores, Opened(s, h, record, openFails, allocFails).stores)
  {
    hide Relinked;
    RelinkedChunks(s.(issued := s.issued - multiset{record}), s.files - {Part(record.originalName)});
  }

  lemma ChunksAfterPublish(s: State, h: nat, syncFails: bool, renameFails: bool, leftover: set<Path>)
    requires h in s.jobs
    ensures SameChunks(s.stores, JobEnded(s, h, syncFails, renameFails, leftover).stores)
  {
    hide Relinked, Moved, RemoveDirectories;
    var part, final := Part(s.jobs[h].record.originalName), Final(s.jobs[h].record.originalName);
    var ended := s.(jobs := s.jobs - {h});
    RelinkedChunks(ended, s.files - {part});
    if part in s.files {
      MovedChunks(ended, part, final);
      var moved := Moved(ended, part, final);
      RelinkedChunks(moved, RemoveDirectories(moved.files, {s.jobs[h].record.fileId}, leftover));
    }
  }

  lemma ChunksAfterOthers(zstd: Decoder, s: State, step: Step)
    requires !(step.OpenStore? || step.WriteStore? || step.CloseStore?)
    ensures SameChunks(s.stores, Apply(zstd, s, step).stores)
  {
    hide SameChunks, Relinked, RemoveDirectories, WithoutOld, Registered, Opened, JobEnded, CanRead, Issues, WithTtl,
         WithoutExpired, ExpiredIds, WriteTo, Content, Present, Produced;
    NothingStored(s.stores);
    match step
    case Open(h, record, openFails, allocFails) => ChunksAfterOpen(s, h, record, openFails, allocFails);
    case Publish(h, syncFails, renameFails, leftover) =>
      if h in s.jobs {
        ChunksAfterPublish(s, h, syncFails, renameFails, leftover);
      }
    case Cleanup(now, left) =>
      RelinkedChunks(s.(payloads := WithoutExpired(s.payloads, now)),
                     RemoveDirectories(s.files, ExpiredIds(s.payloads, now), left));
    case RemoveOld(aged) => RelinkedChunks(s, WithoutOld(s.files, aged));
    case _ => {}
  }

  /** Handles aside, the stores after a step are those before it, but for one that was opened. */
  lemma StoresAfter(zstd: Decoder, s: State, step: Step)
    ensures var s' := Apply(zstd, s, step);
            forall h :: h in s'.stores ==>
              (h in s.stores && s'.stores[h].chunk == s.stores[h].chunk)
              || (step.OpenStore? && s'.stores[h].chunk == step.chunk)
  {
    hide Apply;
    if step.OpenStore? || step.WriteStore? || step.CloseStore? {
      ChunksAfterStore(zstd, s, step);
    } else {
      ChunksAfterOthers(zstd, s, step);
    }
  }

  // ----- Whatever arrives: what the server never publishes -----

  /** Every slot is empty or holds the patch of its own index. */
  ghost predicate OwnPatches(record: PayloadRecord) {
    1 <= record.totalChunks &&
    forall i :: 0 <= i < |record.chunkFiles| ==>
      record.chunkFiles[i].None? || record.chunkFiles[i] == Some(Patch(record.fileId, i))
  }

  ghost predicate NoSlotMissing(record: PayloadRecord) {
    && |record.chunkFiles| == record.totalChunks >= 1
    && forall i :: 0 <= i < record.totalChunks ==> record.chunkFiles[i] == Some(Patch(record.fileId, i))
  }

  /** A record being assembled has the length it claims, and no slot read so far was empty. */
  ghost predicate JobSound(job: Job) {
    && OwnPatches(job.record)
    && |job.record.chunkFiles| == job.record.totalChunks && job.next <= job.record.totalChunks
    && forall i :: 0 <= i < job.next ==> job.record.chunkFiles[i].Some?
  }

  ghost predicate JobsSound(jobs: map<nat, Job>) {
    forall h :: h in jobs ==> JobSound(jobs[h])
  }

  ghost predicate IssuedSound(issued: multiset<PayloadRecord>) {
    forall record :: record in issued ==> OwnPatches(record)
  }

  ghost predicate PublishedSound(published: seq<Publication>) {
    forall p :: p in published ==> NoSlotMissing(p.record)
  }

  ghost predicate Sound(s: State) {
    AllWellFormed(s.payloads) && IssuedSound(s.issued) && JobsSound(s.jobs) && PublishedSound(s.published)
  }

  lemma WellFormedRecord(id: string, entry: Entry)
    requires WellFormed(id, entry)
    ensures OwnPatches(entry.record)
  {}

  lemma RegisterKeepsSound(zstd: Decoder, s: State, chunk: ChunkData, now: int)
    requires Sound(s) && chunk in s.written && chunk.index < chunk.totalChunks
    ensures Sound(Apply(zstd, s, Register(chunk, now)))
  {
    hide OwnPatches, JobsSound, PublishedSound, WellFormed, Registered;
    RegisterKeepsWellFormed(s.payloads, chunk, now, s.defaultTtl);
    var payloads := Registered(s.payloads, chunk, now, s.defaultTtl);
    ChunkIsIn(s.payloads, chunk, now, s.defaultTtl);
    WellFormedRecord(chunk.fileId, payloads[chunk.fileId]);
  }

  lemma ChunkIsIn(payloads: Payloads, chunk: ChunkData, now: int, ttl: int)
    requires chunk.index < chunk.totalChunks
    ensures chunk.fileId in Registered(payloads, chunk, now, ttl)
  {}

  lemma ReadKeepsJobSound(zstd: Decoder, s: State, h: nat, unreadable: bool, unwritable: bool)
    requires h in s.jobs && CanRead(s.jobs[h]) && JobSound(s.jobs[h])
    ensures var s' := ChunkRead(zstd, s, h, unreadable, unwritable);
            h in s'.jobs && JobSound(s'.jobs[h]) && s' == s.(files := s'.files, jobs := s.jobs[h := s'.jobs[h]])
  {
    hide OwnPatches, Content, Produced, WriteTo;
  }

  lemma PublishedIsWhole(job: Job)
    requires JobSound(job) && job.ok && !CanRead(job)
    ensures NoSlotMissing(job.record)
  {}

  /** Only handles are relinked. */
  lemma RelinkedIsSound(s: State, files: Files)
    requires Sound(s)
    ensures Sound(Relinked(s, files))
  {
    hide OwnPatches, AllWellFormed, IssuedSound, PublishedSound, AfterRemoval;
    forall h | h in s.jobs
      ensures JobSound(Relinked(s, files).jobs[h])
    {
      assert JobSound(s.jobs[h]);
    }
  }

  lemma MovedIsSound(s: State, from: Path, to: Path)
    requires Sound(s) && from in s.files
    ensures Sound(Moved(s, from, to))
  {
    hide OwnPatches, AllWellFormed, IssuedSound, PublishedSound, AfterRenaming;
    forall h | h in s.jobs
      ensures JobSound(Moved(s, from, to).jobs[h])
    {
      assert JobSound(s.jobs[h]);
    }
  }

  lemma NewJobIsSound(record: PayloadRecord, file: Handle)
    requires OwnPatches(record) && |record.chunkFiles| == record.totalChunks
    ensures JobSound(Job(record, file, 0, [], 0, true))
  {
    hide OwnPatches;
  }

  lemma OpenKeepsSound(s: State, h: nat, record: PayloadRecord, openFails: bool, allocFails: bool)
    requires Sound(s) && record in s.issued
    ensures Sound(Opened(s, h, record, openFails, allocFails))
  {
    hide AllWellFormed, OwnPatches, PublishedSound, JobSound, Relinked;
    var part := Part(record.originalName);
    RelinkedIsSound(s.(issued := s.issued - multiset{record}), s.files - {part});
    if |record.chunkFiles| == record.totalChunks {
      NewJobIsSound(record, Handle(Some(part), 0));
    }
  }

  lemma PublishKeepsSound(s: State, h: nat, syncFails: bool, renameFails: bool, leftover: set<Path>)
    requires Sound(s) && h in s.jobs && !CanRead(s.jobs[h])
    ensures Sound(JobEnded(s, h, syncFails, renameFails, leftover))
  {
    hide AllWellFormed, OwnPatches, NoSlotMissing, JobSound, IssuedSound, Relinked, Moved, RemoveDirectories, CanRead;
    var job := s.jobs[h];
    var part, final := Part(job.record.originalName), Final(job.record.originalName);
    var ended := s.(jobs := s.jobs - {h});
    RelinkedIsSound(ended, s.files - {part});
    if part in s.files {
      MovedIsSound(ended, part, final);
      var moved := Moved(ended, part, final);
      var files := RemoveDirectories(moved.files, {job.record.fileId}, leftover);
      RelinkedIsSound(moved, files);
      RelinkedKeeps(moved, files);
      MovedKeeps(ended, part, final);
    }
    if job.ok {
      PublishedIsWhole(job);
    }
  }

  lemma TableKeepsSound(s: State, payloads: Payloads)
    requires AllWellFormed(s.payloads)
    requires forall id :: id in payloads ==>
               id in s.payloads && payloads[id].record == s.payloads[id].record
               && payloads[id].received == s.payloads[id].received
    ensures AllWellFormed(payloads)
  {
    forall id | id in payloads
      ensures WellFormed(id, payloads[id])
    {
      assert WellFormed(id, s.payloads[id]);
    }
  }

  lemma StoresKeepSound(zstd: Decoder, s: State, step: Step)
    requires Sound(s) && (step.OpenStore? || step.WriteStore? || step.CloseStore?)
    ensures Sound(Apply(zstd, s, step))
  {
    hide AllWellFormed, IssuedSound, PublishedSound, JobsSound, Relinked, Moved, WriteTo, CrcsMatch, IndexInRange;
    if step.h in s.stores {
      var chunk := s.stores[step.h].chunk;
      var ended := s.(stores := s.stores - {step.h});
      RelinkedIsSound(ended, s.files - {TemporaryOf(chunk)});
      if TemporaryOf(chunk) in s.files {
        MovedIsSound(ended, TemporaryOf(chunk), PatchOf(chunk));
      }
    }
  }

  lemma OthersKeepSound(zstd: Decoder, s: State, step: Step)
    requires Sound(s) && (step.Mark? || step.UpdateTtl? || step.Cleanup? || step.RemoveOld?)
    ensures Sound(Apply(zstd, s, step))
  {
    hide IssuedSound, PublishedSound, JobsSound, Relinked, AllWellFormed, RemoveDirectories, WithoutOld;
    match step
    case Mark(fileId) => TableKeepsSound(s, s.payloads - {fileId});
    case UpdateTtl(ttl) => TableKeepsSound(s, WithTtl(s.payloads, ttl));
    case Cleanup(now, left) =>
      TableKeepsSound(s, WithoutExpired(s.payloads, now));
      RelinkedIsSound(s.(payloads := WithoutExpired(s.payloads, now)),
                      RemoveDirectories(s.files, ExpiredIds(s.payloads, now), left));
    case RemoveOld(aged) => RelinkedIsSound(s, WithoutOld(s.files, aged));
  }

  lemma StepKeepsSound(zstd: Decoder, s: State, step: Step)
    requires Sound(s)
    ensures Sound(Apply(zstd, s, step))
  {
    hide AllWellFormed, OwnPatches, IssuedSound, PublishedSound, JobSound, Opened, ChunkRead, JobEnded, ChunkEntered,
         StoreOpened, StoreWritten, StoreClosed, StoreFailed, CrcsMatch, CanRead;
    match step
    case Register(chunk, now) =>
      if chunk in s.written && chunk.index < chunk.totalChunks {
        RegisterKeepsSound(zstd, s, chunk, now);
      }
    case Open(h, record, openFails, allocFails) =>
      if record in s.issued {
        OpenKeepsSound(s, h, record, openFails, allocFails);
      }
    case ReadChunk(h, unreadable, unwritable) =>
      if h in s.jobs && CanRead(s.jobs[h]) {
        ReadKeepsJobSound(zstd, s, h, unreadable, unwritable);
      }
    case Publish(h, syncFails, renameFails, leftover) =>
      if h in s.jobs && !CanRead(s.jobs[h]) {
        PublishKeepsSound(s, h, syncFails, renameFails, leftover);
      }
    case Mark(_) => OthersKeepSound(zstd, s, step);
    case UpdateTtl(_) => OthersKeepSound(zstd, s, step);
    case Cleanup(_, _) => OthersKeepSound(zstd, s, step);
    case RemoveOld(_) => OthersKeepSound(zstd, s, step);
    case _ => StoresKeepSound(zstd, s, step);
  }

  /** In every run, on any disk and for any chunks, however they contradict each other: no record
      with an empty or a surplus slot is ever published. */
  lemma {:induction false} NothingIncompleteIsPublished(zstd: Decoder, files: Files, defaultTtl: int, steps: seq<Step>)
    ensures var s := Run(zstd, Initial(files, defaultTtl), steps);
            (forall p :: p in s.published ==> NoSlotMissing(p.record)) && Sound(s)
    decreases |steps|
  {
    hide Apply, NoSlotMissing, AllWellFormed, JobsSound, IssuedSound;
    if steps == [] {
      InitialIsSound(files, defaultTtl);
    } else {
      var init := steps[..|steps| - 1];
      NothingIncompleteIsPublished(zstd, files, defaultTtl, init);
      StepKeepsSound(zstd, Run(zstd, Initial(files, defaultTtl), init), steps[|steps| - 1]);
    }
  }

  lemma InitialIsSound(files: Files, defaultTtl: int)
    ensures Sound(Initial(files, defaultTtl))
  {}
}
