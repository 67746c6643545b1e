/** From the data a client splits to the content of the published file. */
module Delivery {
  import opened Disk
  import opened Storage
  import opened Assembler
  import opened Relay
  import opened EndToEnd
  import opened Uploads
  import opened FinalFiles
  import Chunker

  // ----- What happens to jobs -----

  /** The same work is going on, whatever has become of the handles. */
  predicate SameButHandles(jobs: map<nat, Job>, jobs': map<nat, Job>) {
    forall h :: h in jobs' ==> h in jobs && jobs'[h] == jobs[h].(file := jobs'[h].file)
  }

  /** At least the records are the same. */
  predicate SameRecords(jobs: map<nat, Job>, jobs': map<nat, Job>) {
    forall h :: h in jobs' ==> h in jobs && jobs'[h].record == jobs[h].record
  }

  lemma RelinkedRecords(s: State, files: Files)
    ensures SameButHandles(s.jobs, Relinked(s, files).jobs)
  {}

  lemma MovedRecords(s: State, from: Path, to: Path)
    requires from in s.files
    ensures SameButHandles(s.jobs, Moved(s, from, to).jobs)
  {}

  lemma RecordsAfterStore(zstd: Decoder, s: State, step: Step)
    requires step.OpenStore? || step.WriteStore? || step.CloseStore?
    ensures SameButHandles(s.jobs, Apply(zstd, s, step).jobs)
  {
    hide Relinked, Moved, WriteTo, CrcsMatch, IndexInRange, CanWrite;
    if step.h in s.stores {
      var ended, chunk := s.(stores := s.stores - {step.h}), s.stores[step.h].chunk;
      RelinkedRecords(ended, s.files - {TemporaryOf(chunk)});
      if TemporaryOf(chunk) in s.files {
        MovedRecords(ended, TemporaryOf(chunk), PatchOf(chunk));
      }
    }
  }

  lemma RecordsAfterOpen(s: State, h: nat, record: PayloadRecord, openFails: bool, allocFails: bool)
    ensures var jobs := Opened(s, h, record, openFails, allocFails).jobs;
            forall k :: k in jobs ==>
              || (k in s.jobs && jobs[k] == s.jobs[k].(file := jobs[k].file))
              || jobs[k] == Job(record, jobs[k].file, 0, [], 0, true)
  {
    hide Relinked;
    RelinkedRecords(s.(issued := s.issued - multiset{record}), s.files - {Part(record.originalName)});
  }

  lemma RecordsAfterRead(zstd: Decoder, s: State, h: nat, unreadable: bool, unwritable: bool)
    requires h in s.jobs && CanRead(s.jobs[h])
    ensures var s' := ChunkRead(zstd, s, h, unreadable, unwritable);
            && h in s'.jobs && s'.jobs[h].record == s.jobs[h].record
            && s' == s.(files := s'.files, jobs := s.jobs[h := s'.jobs[h]])
  {
    hide WriteTo, Content, Present, Produced, CanRead;
  }

  lemma RecordsAfterPublish(s: State, h: nat, syncFails: bool, renameFails: bool, leftover: set<Path>)
    requires h in s.jobs
    ensures var s' := JobEnded(s, h, syncFails, renameFails, leftover);
            && SameButHandles(s.jobs, s'.jobs)
            && forall p :: p in s'.published ==>
                 || p in s.published
                 || (p == Publication(s.jobs[h].record, s.jobs[h].input) && s.jobs[h].ok && s.jobs[h].pending == 0)
  {
    hide Relinked, Moved, RemoveDirectories;
    var part, final := Part(s.jobs[h].record.originalName), Final(s.jobs[h].record.originalName);
    var ended := s.(jobs := s.jobs - {h});
    RelinkedRecords(ended, s.files - {part});
    RelinkedKeeps(ended, s.files - {part});
    if part in s.files {
      MovedRecords(ended, part, final);
      var moved := Moved(ended, part, final);
      RelinkedRecords(moved, RemoveDirectories(moved.files, {s.jobs[h].record.fileId}, leftover));
    }
  }

  // ----- Whose name it is -----

  /** Whatever goes by this name belongs to this file id. */
  predicate Owned(id: string, name: string, record: PayloadRecord) {
    record.originalName == name ==> record.fileId == id
  }

  predicate OwnedChunk(id: string, name: string, chunk: ChunkData) {
    chunk.originalName == name ==> chunk.fileId == id
  }

  predicate Owns(id: string, name: string, s: State) {
    && (forall h :: h in s.stores ==> OwnedChunk(id, name, s.stores[h].chunk))
    && (forall c :: c in s.written ==> OwnedChunk(id, name, c))
    && (forall k :: k in s.payloads ==> Owned(id, name, s.payloads[k].record) && s.payloads[k].record.fileId == k)
    && (forall r :: r in s.issued ==> Owned(id, name, r))
    && (forall h :: h in s.jobs ==> Owned(id, name, s.jobs[h].record))
    && (forall p :: p in s.published ==> Owned(id, name, p.record))
  }

  predicate NamedFor(id: string, name: string, step: Step) { step.OpenStore? ==> OwnedChunk(id, name, step.chunk) }

  lemma EnteringOwns(id: string, name: string, s: State, chunk: ChunkData, now: int)
    requires Owns(id, name, s) && chunk in s.written && chunk.index < chunk.totalChunks
    ensures Owns(id, name, ChunkEntered(s, chunk, now))
  {
    hide Owned, OwnedChunk, Registered, ChunkEntered;
    EnteredRecords(s, chunk, now);
    EnteredIsOwned(id, name, s, chunk, now);
    EnteredName(s.payloads, chunk, now, s.defaultTtl);
  }

  lemma EnteredRecords(s: State, chunk: ChunkData, now: int)
    requires chunk.index < chunk.totalChunks
    ensures var s' := ChunkEntered(s, chunk, now);
            && s' == s.(payloads := Registered(s.payloads, chunk, now, s.defaultTtl), written := s'.written,
                        issued := s'.issued)
            && (forall c :: c in s'.written ==> c in s.written)
            && (forall r :: r in s'.issued ==> r in s.issued || r == s'.payloads[chunk.fileId].record)
  {
    hide Registered;
  }

  lemma EnteredIsOwned(id: string, name: string, s: State, chunk: ChunkData, now: int)
    requires Owns(id, name, s) && chunk in s.written && chunk.index < chunk.totalChunks
    ensures var record := Registered(s.payloads, chunk, now, s.defaultTtl)[chunk.fileId].record;
            Owned(id, name, record) && record.fileId == chunk.fileId
  {
    hide Registered;
    assert OwnedChunk(id, name, chunk);
    EnteredName(s.payloads, chunk, now, s.defaultTtl);
    EnteredId(s.payloads, chunk, now, s.defaultTtl);
  }

  lemma EnteredId(payloads: Payloads, chunk: ChunkData, now: int, ttl: int)
    requires chunk.index < chunk.totalChunks
    requires chunk.fileId in payloads ==> payloads[chunk.fileId].record.fileId == chunk.fileId
    ensures var payloads' := Registered(payloads, chunk, now, ttl);
            chunk.fileId in payloads' && payloads'[chunk.fileId].record.fileId == chunk.fileId
  {}

  lemma TableOwns(id: string, name: string, s: State, s': State)
    requires Owns(id, name, s) && SameRecords(s.jobs, s'.jobs) && SameChunks(s.stores, s'.stores)
    requires s'.written == s.written && s'.issued == s.issued && s'.published == s.published
    requires forall k :: k in s'.payloads ==> k in s.payloads && s'.payloads[k].record == s.payloads[k].record
    ensures Owns(id, name, s')
  {
    hide Owned, OwnedChunk;
  }

  lemma StoreStepOwns(zstd: Decoder, id: string, name: string, s: State, step: Step)
    requires Owns(id, name, s) && NamedFor(id, name, step)
    requires step.OpenStore? || step.WriteStore? || step.CloseStore?
    ensures Owns(id, name, Apply(zstd, s, step))
  {
    hide Apply, Owned, OwnedChunk;
    RecordsAfterStore(zstd, s, step);
    StoresFrame(zstd, s, step);
    StoresAfter(zstd, s, step);
    WrittenAfter(zstd, s, step);
  }

  lemma OpenOwns(id: string, name: string, s: State, h: nat, record: PayloadRecord, openFails: bool, allocFails: bool)
    requires Owns(id, name, s) && record in s.issued
    ensures Owns(id, name, Opened(s, h, record, openFails, allocFails))
  {
    hide Owned, OwnedChunk, Relinked;
    RecordsAfterOpen(s, h, record, openFails, allocFails);
    ChunksAfterOpen(s, h, record, openFails, allocFails);
    OpenFrame(s, h, record, openFails, allocFails);
    RelinkedKeeps(s.(issued := s.issued - multiset{record}), s.files - {Part(record.originalName)});
  }

  lemma ReadOwns(
      zstd: Decoder, id: string, name: string, s: State, h: nat, unreadable: bool, unwritable: bool)
    requires Owns(id, name, s) && h in s.jobs && CanRead(s.jobs[h])
    ensures Owns(id, name, ChunkRead(zstd, s, h, unreadable, unwritable))
  {
    hide Owns, ChunkRead, CanRead;
    RecordsAfterRead(zstd, s, h, unreadable, unwritable);
    TableOwns(id, name, s, ChunkRead(zstd, s, h, unreadable, unwritable));
  }

  lemma PublishOwns(
      id: string, name: string, s: State, h: nat, syncFails: bool, renameFails: bool, leftover: set<Path>)
    requires Owns(id, name, s) && h in s.jobs
    ensures Owns(id, name, JobEnded(s, h, syncFails, renameFails, leftover))
  {
    hide Owned, OwnedChunk, JobEnded;
    RecordsAfterPublish(s, h, syncFails, renameFails, leftover);
    ChunksAfterPublish(s, h, syncFails, renameFails, leftover);
    PublishFrame(s, h, syncFails, renameFails, leftover);
  }

  lemma OtherStepOwns(zstd: Decoder, id: string, name: string, s: State, step: Step)
    requires Owns(id, name, s) && (step.Mark? || step.UpdateTtl? || step.Cleanup? || step.RemoveOld?)
    ensures Owns(id, name, Apply(zstd, s, step))
  {
    hide Owns, Relinked, RemoveDirectories, WithoutOld;
    match step
    case Mark(_) => TableOwns(id, name, s, Apply(zstd, s, step));
    case UpdateTtl(_) => TableOwns(id, name, s, Apply(zstd, s, step));
    case Cleanup(now, left) =>
      var swept := s.(payloads := WithoutExpired(s.payloads, now));
      var files := RemoveDirectories(s.files, ExpiredIds(s.payloads, now), left);
      RelinkedOwns(id, name, s, swept, files);
    case RemoveOld(aged) => RelinkedOwns(id, name, s, s, WithoutOld(s.files, aged));
  }

  lemma RelinkedOwns(id: string, name: string, s: State, swept: State, files: Files)
    requires Owns(id, name, s) && swept == s.(payloads := swept.payloads)
    requires forall k :: k in swept.payloads ==> k in s.payloads && swept.payloads[k].record == s.payloads[k].record
    ensures Owns(id, name, Relinked(swept, files))
  {
    hide Owns, Relinked;
    RelinkedKeeps(swept, files);
    RelinkedRecords(swept, files);
    RelinkedChunks(swept, files);
    TableOwns(id, name, s, Relinked(swept, files));
  }

  lemma StepOwns(zstd: Decoder, id: string, name: string, s: State, step: Step)
    requires Owns(id, name, s) && NamedFor(id, name, step)
    ensures Owns(id, name, Apply(zstd, s, step))
  {
    hide Owns, NamedFor, Opened, ChunkRead, JobEnded, ChunkEntered, StoreOpened, StoreWritten, StoreClosed,
         StoreFailed, Relinked, CanRead, CanWrite, WithTtl, WithoutExpired, IndexInRange;
    match step
    case Register(chunk, now) =>
      if chunk in s.written && chunk.index < chunk.totalChunks {
        EnteringOwns(id, name, s, chunk, now);
      }
    case Open(h, record, openFails, allocFails) =>
      if record in s.issued {
        OpenOwns(id, name, s, h, record, openFails, allocFails);
      }
    case ReadChunk(h, unreadable, unwritable) =>
      if h in s.jobs && CanRead(s.jobs[h]) {
        ReadOwns(zstd, id, name, s, h, unreadable, unwritable);
      }
    case Publish(h, syncFails, renameFails, leftover) =>
      if h in s.jobs {
        PublishOwns(id, name, s, h, syncFails, renameFails, leftover);
      }
    case Mark(_) => OtherStepOwns(zstd, id, name, s, step);
    case UpdateTtl(_) => OtherStepOwns(zstd, id, name, s, step);
    case Cleanup(_, _) => OtherStepOwns(zstd, id, name, s, step);
    case RemoveOld(_) => OtherStepOwns(zstd, id, name, s, step);
    case _ => StoreStepOwns(zstd, id, name, s, step);
  }

  lemma {:induction false} RunOwns(
      zstd: Decoder, id: string, name: string, files: Files, defaultTtl: int, steps: seq<Step>)
    requires forall step :: step in steps ==> NamedFor(id, name, step)
    ensures Owns(id, name, Run(zstd, Initial(files, defaultTtl), steps))
    decreases |steps|
  {
    hide Apply, NamedFor;
    if steps == [] {
    } else {
      var init, last := steps[..|steps| - 1], steps[|steps| - 1];
      RunOwns(zstd, id, name, files, defaultTtl, init);
      assert last in steps;
      StepOwns(zstd, id, name, Run(zstd, Initial(files, defaultTtl), init), last);
    }
  }

  // ----- The published file -----

  lemma {:induction false} LastFedIsPublished(published: seq<Publication>, name: string)
    requires LastFed(published, name).Some?
    ensures exists p :: p in published && p.record.originalName == name && Some(p.fed) == LastFed(published, name)
    decreases |published|
  {
    var init, last := published[..|published| - 1], published[|published| - 1];
    if last.record.originalName == name {
      assert last in published;
    } else {
      LastFedIsPublished(init, name);
      var p :| p in init && p.record.originalName == name && Some(p.fed) == LastFed(init, name);
      assert p in published;
    }
  }

  /** What a client splits and sends under an id and a name of its own arrives.  Provided that no two
      handlers store the same chunk of it or assemble the same name at once, and that no name in use is
      another one followed by ".part": after every run, whatever else arrives, fails, is lost,
      repeated, damaged in a burst or swept, the file published under that name, if it is there, is the
      decompression of exactly that data; or it was there before and nothing has been published. */
  lemma TheDataArrives(
      zstd: Decoder, id: string, name: string, data: seq<bv8>, payloadSize: nat, names: set<string>,
      files: Files, defaultTtl: int, steps: seq<Step>)
    requires |data| < Chunker.SIZE_LIMIT && 0 < payloadSize < Chunker.SIZE_LIMIT
    requires forall step :: step in steps ==>
               Delivers(SplitOf(id, data, payloadSize), step) && NamedFor(id, name, step) && UsesNames(names, step)
    requires name in names && NamesApart(names)
    requires OneStoreAtATime(id, zstd, Initial(files, defaultTtl), steps)
    requires OneAssemblyAtATime(zstd, Initial(files, defaultTtl), steps)
    ensures var s := Run(zstd, Initial(files, defaultTtl), steps);
            Final(name) in s.files ==>
              if exists p :: p in s.published && p.record.originalName == name
              then s.files[Final(name)] == Output(zstd, data)
              else Final(name) in files && s.files[Final(name)] == files[Final(name)]
  {
    hide Run, SplitOf, Delivers, NamedFor, UsesNames, NamesApart, OneStoreAtATime, OneAssemblyAtATime, Output, LastFed;
    var s := Run(zstd, Initial(files, defaultTtl), steps);
    RunOwns(zstd, id, name, files, defaultTtl, steps);
    PublishedIsTheOriginal(zstd, id, data, payloadSize, files, defaultTtl, steps);
    RunIsOrderly(zstd, names, files, defaultTtl, steps);
    FinalOfName(zstd, files, names, s, name);
    if LastFed(s.published, name).Some? {
      LastFedIsPublished(s.published, name);
    } else {
      NeverPublished(s.published, name);
    }
  }

  /** The step brings nothing under this id but one of the chunks the client made. */
  ghost predicate Sends(id: string, chunks: seq<Chunker.FileChunk>, step: Step) {
    step.OpenStore? && step.chunk.fileId == id ==> exists k :: 0 <= k < |chunks| && Carries(id, step.chunk, chunks[k])
  }

  /** The same, from the chunks the client's split yields. */
  lemma TheSplitArrives(
      zstd: Decoder, id: string, name: string, file: Chunker.CompressedFile, payloadSize: nat,
      chunks: seq<Chunker.FileChunk>, names: set<string>, files: Files, defaultTtl: int, steps: seq<Step>)
    requires |file.data| < Chunker.SIZE_LIMIT && 0 < payloadSize < Chunker.SIZE_LIMIT
    requires Chunker.IsSplit(file, payloadSize, chunks)
    requires forall step :: step in steps ==>
               Sends(id, chunks, step) && NamedFor(id, name, step) && UsesNames(names, step)
    requires name in names && NamesApart(names)
    requires OneStoreAtATime(id, zstd, Initial(files, defaultTtl), steps)
    requires OneAssemblyAtATime(zstd, Initial(files, defaultTtl), steps)
    ensures var s := Run(zstd, Initial(files, defaultTtl), steps);
            Final(name) in s.files ==>
              if exists p :: p in s.published && p.record.originalName == name
              then s.files[Final(name)] == Output(zstd, file.data)
              else Final(name) in files && s.files[Final(name)] == files[Final(name)]
  {
    hide Run, Chunker.IsSplit, Sends, NamedFor, UsesNames, NamesApart, OneStoreAtATime, OneAssemblyAtATime, Output;
    forall step | step in steps
      ensures Delivers(SplitOf(id, file.data, payloadSize), step)
    {
      SentIsDelivered(id, file, payloadSize, chunks, step);
    }
    TheDataArrives(zstd, id, name, file.data, payloadSize, names, files, defaultTtl, steps);
  }

  lemma SentIsDelivered(
      id: string, file: Chunker.CompressedFile, payloadSize: nat, chunks: seq<Chunker.FileChunk>, step: Step)
    requires payloadSize > 0 && Chunker.IsSplit(file, payloadSize, chunks) && Sends(id, chunks, step)
    ensures Delivers(SplitOf(id, file.data, payloadSize), step)
  {
    hide Chunker.IsSplit, Carries, FromSplit;
    SplitId(id, file.data, payloadSize);
    if step.OpenStore? && step.chunk.fileId == id {
      var k :| 0 <= k < |chunks| && Carries(id, step.chunk, chunks[k]);
      CarriedIsFromSplit(id, file, payloadSize, chunks, k, step.chunk);
    }
  }

  lemma FinalOfName(zstd: Decoder, initial: Files, names: set<string>, s: State, name: string)
    requires Orderly(zstd, initial, names, s) && name in names
    ensures FinalFileAsPublished(zstd, initial, s, name)
  {}

  lemma {:induction false} NeverPublished(published: seq<Publication>, name: string)
    requires LastFed(published, name).None?
    ensures forall p :: p in published ==> p.record.originalName != name
    decreases |published|
  {
    if published == [] {
    } else {
      NeverPublished(published[..|published| - 1], name);
      assert published == published[..|published| - 1] + [published[|published| - 1]];
    }
  }
}
