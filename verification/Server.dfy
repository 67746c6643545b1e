/** One data handler on its own: what its steps come to when nothing disturbs them. */
module Server {
  import opened Disk
  import opened Storage
  import opened Assembler
  import opened Relay

  /** No other handler is writing or assembling. */
  predicate Alone(s: State) { s.stores == map[] && s.jobs == map[] }

  lemma NothingToRelink(s: State, files: Files)
    requires Alone(s)
    ensures Relinked(s, files) == s.(files := files)
  {}

  lemma NothingToMove(s: State, from: Path, to: Path)
    requires Alone(s) && from in s.files
    ensures Moved(s, from, to) == s.(files := Renamed(s.files, from, to))
  {}

  // ----- Storing a chunk -----

  /** The steps of one store, one after the other; the payload is written in one go or not at all. */
  function StoreRun(zstd: Decoder, s: State, h: nat, chunk: ChunkData, c: Conditions): State {
    var s1 := Apply(zstd, s, OpenStore(h, chunk, c.dir, c.open));
    var s2 := Apply(zstd, s1, WriteStore(h, |chunk.payload|, |chunk.payload| > c.room));
    Apply(zstd, s2, CloseStore(h, c.sync, c.rename))
  }

  /** A store that nothing disturbs is what the storage object's specification says. */
  lemma UndisturbedStore(zstd: Decoder, s: State, h: nat, chunk: ChunkData, c: Conditions)
    requires Alone(s) && IndexInRange(chunk)
    ensures StoreRun(zstd, s, h, chunk, c) == s.(
              files := AfterWriting(s.files, chunk, c),
              written := if BecomesPatch(chunk, c) then s.written + multiset{chunk} else s.written)
  {
    hide CrcsMatch, Relinked, Moved;
    if CrcsMatch(chunk) && c.dir && c.open {
      var s1 := StoreOpened(s, h, chunk);
      assert s1.files - {TemporaryOf(chunk)} == s.files - {TemporaryOf(chunk)};
      assert s1.stores - {h} == map[];
      if |chunk.payload| > c.room {
        StoreGivenUp(s, s1, h, chunk);
      } else {
        WrittenInFull(s, h, chunk);
        var s2 := s1.(files := s.files[TemporaryOf(chunk) := chunk.payload],
                      stores := map[h := Store(chunk, Handle(Some(TemporaryOf(chunk)), |chunk.payload|))]);
        if c.sync {
          ClosedUndisturbed(zstd, s, s2, h, chunk, c.rename);
        } else {
          StoreGivenUp(s, s2, h, chunk);
        }
      }
    }
  }

  lemma StoreGivenUp(s: State, s': State, h: nat, chunk: ChunkData)
    requires Alone(s) && h in s'.stores && s'.stores - {h} == map[] && s'.stores[h].chunk == chunk
    requires s' == s.(files := s'.files, stores := s'.stores)
    requires s'.files - {TemporaryOf(chunk)} == s.files - {TemporaryOf(chunk)}
    ensures StoreFailed(s', h) == s.(files := s.files - {TemporaryOf(chunk)})
  {
    hide Relinked;
    NothingToRelink(s'.(stores := map[]), s'.files - {TemporaryOf(chunk)});
  }

  lemma WrittenInFull(s: State, h: nat, chunk: ChunkData)
    requires Alone(s)
    ensures var s1, temporary := StoreOpened(s, h, chunk), TemporaryOf(chunk);
            (if CanWrite(s1.stores[h]) then StoreWritten(s1, h, |chunk.payload|) else s1)
            == s.(files := s.files[temporary := chunk.payload],
                  stores := map[h := Store(chunk, Handle(Some(temporary), |chunk.payload|))])
  {
    var payload := chunk.payload;
    assert payload[0..|payload|] == payload && [] + payload == payload;
    WriteAtTheEnd([], payload);
  }

  lemma ClosedUndisturbed(zstd: Decoder, s: State, s2: State, h: nat, chunk: ChunkData, renameOk: bool)
    requires Alone(s)
    requires s2 == s.(files := s.files[TemporaryOf(chunk) := chunk.payload],
                      stores := map[h := Store(chunk, Handle(Some(TemporaryOf(chunk)), |chunk.payload|))])
    ensures Apply(zstd, s2, CloseStore(h, true, renameOk)) ==
              if !renameOk then s.(files := s.files[TemporaryOf(chunk) := chunk.payload])
              else s.(files := (s.files - {TemporaryOf(chunk)})[PatchOf(chunk) := chunk.payload],
                      written := s.written + multiset{chunk})
  {
    hide Relinked, Moved;
    assert s2.stores - {h} == map[];
    assert s2.files - {TemporaryOf(chunk)} == s.files - {TemporaryOf(chunk)};
    NothingToMove(s2.(stores := map[]), TemporaryOf(chunk), PatchOf(chunk));
  }

  // ----- Assembling a record -----

  /** Reads the first `n` chunks. */
  function ReadAll(zstd: Decoder, s: State, h: nat, faults: Faults, n: nat): State {
    if n == 0 then s
    else
      Apply(zstd, ReadAll(zstd, s, h, faults, n - 1),
            ReadChunk(h, n - 1 in faults.unreadable, n - 1 in faults.unwritable))
  }

  /** The steps of one assembly, one after the other. */
  function AssemblyRun(zstd: Decoder, s: State, h: nat, record: PayloadRecord, faults: Faults): State {
    var s1 := Apply(zstd, s, Open(h, record, faults.open, faults.alloc));
    var s2 := ReadAll(zstd, s1, h, faults, record.totalChunks);
    var s3 := Apply(zstd, s2, Publish(h, faults.sync, faults.rename, faults.left));
    Apply(zstd, s3, Mark(record.fileId))
  }

  /** What an assembly comes to when nothing happens in between. */
  function AssembledAtOnce(zstd: Decoder, s: State, record: PayloadRecord, faults: Faults): State {
    var done := s.(issued := s.issued - multiset{record}, files := Assembled(s.files, record, faults, zstd));
    if Assembles(s.files, record, faults, zstd)
    then done.(payloads := s.payloads - {record.fileId},
               published := s.published + [Publication(record, Fed(s.files, record.chunkFiles, record.totalChunks))])
    else done
  }

  /** `s'` is where the first `n` reads of a freshly opened record lead from `s`. */
  ghost predicate HasRead(
      zstd: Decoder, s: State, s': State, h: nat, record: PayloadRecord, faults: Faults, n: nat)
    requires n <= |record.chunkFiles|
  {
    var part, slots := Part(record.originalName), record.chunkFiles;
    var fed := Fed(s.files, slots, n);
    var output := Output(zstd, fed);
    && s'.jobs.Keys == {h} && s'.jobs[h].record == record && part in s'.files
    && s' == s.(files := s'.files, jobs := s'.jobs)
    && s'.files - {part} == s.files - {part}
    && (if AllPass(s.files, slots, faults, zstd, n)
        then s'.jobs[h] == Job(record, Handle(Some(part), |output|), n, fed, Pending(zstd, fed), true)
             && s'.files[part] == output
        else !s'.jobs[h].ok)
  }

  lemma SlotUnchanged(files: Files, files': Files, part: Path, slot: Option<Path>)
    requires files' - {part} == files - {part} && slot != Some(part)
    ensures Present(files', slot) == Present(files, slot) && Content(files', slot) == Content(files, slot)
  {
    if slot.Some? {
      var p := slot.value;
      assert (p in files <==> p in files - {part}) && (p in files' <==> p in files' - {part});
      assert p in files ==> files[p] == (files - {part})[p];
      assert p in files' ==> files'[p] == (files' - {part})[p];
    }
  }

  lemma HasReadOneMore(
      zstd: Decoder, s: State, s': State, h: nat, record: PayloadRecord, faults: Faults, n: nat)
    requires n < |record.chunkFiles| && ListsPatches(record.chunkFiles) && HasRead(zstd, s, s', h, record, faults, n)
    ensures HasRead(zstd, s, Apply(zstd, s', ReadChunk(h, n in faults.unreadable, n in faults.unwritable)),
                    h, record, faults, n + 1)
  {
    hide AllPass, Fed, Passes, Present, Content, Output, Produced, Pending, Overwritten;
    var part, slots := Part(record.originalName), record.chunkFiles;
    ReadOne(s.files, slots, faults, zstd, n);
    AllPassStep(s.files, slots, faults, zstd, n);
    SlotUnchanged(s.files, s'.files, part, slots[n]);
    var fed, content := Fed(s.files, slots, n), Content(s.files, slots[n]);
    FeedingChunk(zstd, fed, content);
    WriteAtTheEnd(Output(zstd, fed), Produced(zstd, fed, content));
  }

  lemma {:induction false} ReadAllGoesOn(zstd: Decoder, s: State, h: nat, record: PayloadRecord, faults: Faults, n: nat)
    requires n <= |record.chunkFiles| && ListsPatches(record.chunkFiles)
    requires HasRead(zstd, s, s, h, record, faults, 0)
    ensures HasRead(zstd, s, ReadAll(zstd, s, h, faults, n), h, record, faults, n)
    decreases n
  {
    hide HasRead, Apply;
    if n == 0 {
    } else {
      ReadAllGoesOn(zstd, s, h, record, faults, n - 1);
      HasReadOneMore(zstd, s, ReadAll(zstd, s, h, faults, n - 1), h, record, faults, n - 1);
    }
  }

  lemma NoJobToRead(zstd: Decoder, s: State, h: nat, unreadable: bool, unwritable: bool)
    requires h !in s.jobs
    ensures Apply(zstd, s, ReadChunk(h, unreadable, unwritable)) == s
  {}

  lemma {:induction false} NothingToRead(zstd: Decoder, s: State, h: nat, faults: Faults, n: nat)
    requires h !in s.jobs
    ensures ReadAll(zstd, s, h, faults, n) == s
    decreases n
  {
    hide Apply;
    if n == 0 {
    } else {
      NothingToRead(zstd, s, h, faults, n - 1);
      NoJobToRead(zstd, s, h, n - 1 in faults.unreadable, n - 1 in faults.unwritable);
    }
  }

  lemma JustOpened(zstd: Decoder, s: State, h: nat, record: PayloadRecord, faults: Faults)
    requires var part := Part(record.originalName);
             && s.jobs == map[h := Job(record, Handle(Some(part), 0), 0, [], 0, true)]
             && part in s.files && s.files[part] == []
    ensures HasRead(zstd, s, s, h, record, faults, 0)
  {
    NothingRead(s.files, record.chunkFiles, faults, zstd);
  }

  /** An assembly that nothing disturbs is what the assembler's specification says. */
  lemma UndisturbedAssembly(zstd: Decoder, s: State, h: nat, record: PayloadRecord, faults: Faults)
    requires Alone(s) && record in s.issued && ListsPatches(record.chunkFiles) && record.fileId !in s.unmarked
    ensures AssemblyRun(zstd, s, h, record, faults) == AssembledAtOnce(zstd, s, record, faults)
  {
    hide ReadAll, AllPass, Fed, Output, Pending, HasRead, RemoveDirectories;
    var part, slots := Part(record.originalName), record.chunkFiles;
    var s1 := Opened(s, h, record, faults.open, faults.alloc);
    if |slots| != record.totalChunks || faults.open || faults.alloc {
      NothingToRead(zstd, s1, h, faults, record.totalChunks);
      NothingToRelink(s.(issued := s.issued - multiset{record}), s.files - {part});
    } else {
      JustOpened(zstd, s1, h, record, faults);
      ReadAllGoesOn(zstd, s1, h, record, faults, |slots|);
      SameReads(s.files, record.originalName, slots, faults, zstd, |slots|);
      EndsUndisturbed(zstd, s, s1, ReadAll(zstd, s1, h, faults, |slots|), h, record, faults);
    }
  }

  lemma EndsUndisturbed(
      zstd: Decoder, s: State, s1: State, s2: State, h: nat, record: PayloadRecord, faults: Faults)
    requires |record.chunkFiles| == record.totalChunks && !faults.open && !faults.alloc
    requires Alone(s) && record.fileId !in s.unmarked
    requires s1 == s.(issued := s.issued - multiset{record},
                      files := s.files[Part(record.originalName) := []], jobs := s1.jobs)
    requires AllPass(s1.files, record.chunkFiles, faults, zstd, record.totalChunks)
             == AllPass(s.files, record.chunkFiles, faults, zstd, record.totalChunks)
    requires Fed(s1.files, record.chunkFiles, record.totalChunks) == Fed(s.files, record.chunkFiles, record.totalChunks)
    requires HasRead(zstd, s1, s2, h, record, faults, record.totalChunks)
    ensures var s3 := Apply(zstd, s2, Publish(h, faults.sync, faults.rename, faults.left));
            Apply(zstd, s3, Mark(record.fileId)) == AssembledAtOnce(zstd, s, record, faults)
  {
    hide AllPass, Fed, Output, Pending, RemoveDirectories, Apply;
    var part := Part(record.originalName);
    assert s1.files - {part} == s.files - {part};
    AllButOne(s2.files, s.files, part);
    assert s2.jobs - {h} == map[];
    if Staged(s.files, record, faults, zstd) {
      EndsWell(zstd, s, s2, h, record, faults);
    } else {
      EndsBadly(zstd, s, s2, h, record, faults);
    }
  }

  lemma AllButOne(files: Files, files': Files, p: Path)
    requires p in files && files - {p} == files' - {p}
    ensures files == files'[p := files[p]]
  {
    forall q | q in files'[p := files[p]]
      ensures q in files && files[q] == files'[p := files[p]][q]
    {
      assert q != p ==> q in files' - {p} && (files' - {p})[q] == files'[q];
      assert q != p ==> q in files - {p} && (files - {p})[q] == files[q];
    }
    forall q | q in files
      ensures q in files'[p := files[p]]
    {
      assert q != p ==> q in files - {p} && q in files' - {p};
    }
  }

  lemma EndsBadly(zstd: Decoder, s: State, s2: State, h: nat, record: PayloadRecord, faults: Faults)
    requires Alone(s) && h in s2.jobs && s2.jobs - {h} == map[] && record.fileId !in s.unmarked
    requires s2 == s.(issued := s.issued - multiset{record}, files := s2.files, jobs := s2.jobs)
    requires s2.jobs[h].record == record && !CanRead(s2.jobs[h])
    requires s2.files - {Part(record.originalName)} == s.files - {Part(record.originalName)}
    requires var job := s2.jobs[h]; !job.ok || job.pending != 0 || faults.sync
    ensures var s3 := Apply(zstd, s2, Publish(h, faults.sync, faults.rename, faults.left));
            Apply(zstd, s3, Mark(record.fileId))
            == s.(issued := s.issued - multiset{record}, files := s.files - {Part(record.originalName)})
  {
    hide RemoveDirectories, Relinked, Moved;
    NothingToRelink(s2.(jobs := map[]), s2.files - {Part(record.originalName)});
  }

  lemma PublishApplied(zstd: Decoder, s: State, h: nat, faults: Faults)
    requires h in s.jobs && !CanRead(s.jobs[h])
    ensures Apply(zstd, s, Publish(h, faults.sync, faults.rename, faults.left))
            == JobEnded(s, h, faults.sync, faults.rename, faults.left)
  {}

  lemma MarkApplied(zstd: Decoder, s: State, fileId: string)
    ensures Apply(zstd, s, Mark(fileId)) ==
              if fileId in s.unmarked
              then s.(unmarked := s.unmarked - multiset{fileId}, payloads := s.payloads - {fileId}) else s
  {}

  lemma EndsWell(zstd: Decoder, s: State, s2: State, h: nat, record: PayloadRecord, faults: Faults)
    requires Alone(s) && h in s2.jobs && s2.jobs - {h} == map[] && record.fileId !in s.unmarked && !faults.sync
    requires s2 == s.(issued := s.issued - multiset{record}, files := s2.files, jobs := s2.jobs)
    requires var job := s2.jobs[h];
             job.record == record && job.next == |record.chunkFiles| && job.pending == 0 && job.ok
    requires Part(record.originalName) in s2.files
    requires s2.files == s.files[Part(record.originalName) := s2.files[Part(record.originalName)]]
    ensures var part, final := Part(record.originalName), Final(record.originalName);
            var output, fed := s2.files[part], s2.jobs[h].input;
            var s3 := Apply(zstd, s2, Publish(h, faults.sync, faults.rename, faults.left));
            Apply(zstd, s3, Mark(record.fileId))
            == if faults.rename then s.(issued := s.issued - multiset{record}, files := s.files[part := output])
               else s.(issued := s.issued - multiset{record},
                       files := RemoveDirectories((s.files - {part})[final := output], {record.fileId}, faults.left),
                       payloads := s.payloads - {record.fileId}, published := s.published + [Publication(record, fed)])
  {
    hide RemoveDirectories, Relinked, Moved, Apply;
    PublishApplied(zstd, s2, h, faults);
    MarkApplied(zstd, JobEnded(s2, h, faults.sync, faults.rename, faults.left), record.fileId);
    var part, final := Part(record.originalName), Final(record.originalName);
    assert s2.files - {part} == s.files - {part};
    assert s.unmarked + multiset{record.fileId} - multiset{record.fileId} == s.unmarked;
    var ended := s2.(jobs := map[]);
    NothingToMove(ended, part, final);
    var files := Renamed(s2.files, part, final);
    NothingToRelink(ended.(files := files), RemoveDirectories(files, {record.fileId}, faults.left));
  }

  // ----- A whole request -----

  predicate Records(chunk: ChunkData, c: Conditions) { IndexInRange(chunk) && BecomesPatch(chunk, c) }

  /** The steps of one handler, one after the other. */
  function HandlerRun(
      zstd: Decoder, s: State, h: nat, chunk: ChunkData, c: Conditions, now: int, faults: Faults): State
  {
    if !IndexInRange(chunk) then s
    else
      var s1 := StoreRun(zstd, s, h, chunk, c);
      var s2 := Apply(zstd, s1, Register(chunk, now));
      if Issues(s1, chunk, now) then AssemblyRun(zstd, s2, h, s2.payloads[chunk.fileId].record, faults) else s2
  }

  lemma RegisteredAtOnce(zstd: Decoder, s: State, s1: State, chunk: ChunkData, now: int)
    requires s.written == multiset{} && s.issued == multiset{} && IndexInRange(chunk)
    requires s1 == s.(files := s1.files, written := s1.written)
    ensures s1.written == multiset{} ==> Apply(zstd, s1, Register(chunk, now)) == s1 && !Issues(s1, chunk, now)
    ensures s1.written == multiset{chunk} ==>
              var payloads := Registered(s.payloads, chunk, now, s.defaultTtl);
              var entry := payloads[chunk.fileId];
              && Issues(s1, chunk, now) == RecordIfComplete(entry).Some?
              && Apply(zstd, s1, Register(chunk, now))
                 == s.(files := s1.files, payloads := payloads,
                       issued := if Issues(s1, chunk, now) then multiset{entry.record} else multiset{})
  {}

  lemma IssuedRecordsListPatches(id: string, entry: Entry)
    requires WellFormed(id, entry)
    ensures ListsPatches(entry.record.chunkFiles)
  {}

  class DataServer {
    const storage: Storage
    const zstd: Decoder
    var chunks: nat
    var chunkErrors: nat
    var assemblies: nat
    var assemblyErrors: nat
    ghost var published: seq<Publication>

    constructor (storage: Storage, zstd: Decoder)
      requires storage.payloads == map[]
      ensures this.storage == storage && this.zstd == zstd && Valid()
      ensures View() == Initial(storage.fs.files, storage.defaultTtl)
    {
      this.storage, this.zstd := storage, zstd;
      chunks, chunkErrors, assemblies, assemblyErrors, published := 0, 0, 0, 0, [];
    }

    ghost function View(): State
      reads this, storage, storage.fs
    {
      State(storage.fs.files, storage.payloads, storage.defaultTtl,
            map[], multiset{}, multiset{}, map[], multiset{}, published)
    }

    ghost predicate Valid()
      reads this, storage
    {
      AllWellFormed(storage.payloads) && assemblies == |published|
    }

    /** Handles one complete data request.  Its effect is that of the steps of one handler. */
    method Handle(h: nat, chunk: ChunkData, c: Conditions, sizes: nat -> nat, now: int, faults: Faults)
      requires Valid()
      modifies this`chunks, this`chunkErrors, this`assemblies, this`assemblyErrors, this`published
      modifies storage`payloads, storage.fs
      ensures Valid()
      ensures View() == HandlerRun(zstd, old(View()), h, chunk, c, now, faults)
      ensures chunks + chunkErrors == old(chunks + chunkErrors) + 1
      ensures chunks == old(chunks) + if IndexInRange(chunk) then 1 else 0
      ensures assemblies + assemblyErrors ==
                old(assemblies + assemblyErrors)
                + if IndexInRange(chunk) && Issues(StoreRun(zstd, old(View()), h, chunk, c), chunk, now) then 1 else 0
    {
      hide StoreRun, AssemblyRun, Apply, Registered, AfterWriting, BecomesPatch, RecordIfComplete, AllWellFormed,
           WellFormed;
      if chunk.totalChunks == 0 || chunk.index >= chunk.totalChunks {
        chunkErrors := chunkErrors + 1;
        return;
      }
      chunks := chunks + 1;
      ghost var s := View();
      RegisterKeepsWellFormed(storage.payloads, chunk, now, storage.defaultTtl);
      var record := storage.StoreChunk(chunk, c, sizes, now);
      UndisturbedStore(zstd, s, h, chunk, c);
      RegisteredAtOnce(zstd, s, StoreRun(zstd, s, h, chunk, c), chunk, now);
      if record.Some? {
        ChunkIsIn(s.payloads, chunk, now, storage.defaultTtl);
        AboutTheRecord(storage.payloads, chunk.fileId, record.value);
        AssembleAndMark(h, record.value, faults);
      }
    }

    /** Assembles a record just issued, and forgets the file when that succeeds. */
    method AssembleAndMark(h: nat, record: PayloadRecord, faults: Faults)
      requires Valid() && ListsPatches(record.chunkFiles)
      modifies this`assemblies, this`assemblyErrors, this`published, storage`payloads, storage.fs
      ensures Valid()
      ensures View() == AssemblyRun(zstd, old(View()).(issued := multiset{record}), h, record, faults)
      ensures assemblies + assemblyErrors == old(assemblies + assemblyErrors) + 1
    {
      hide AssemblyRun, Assembled, Staged, Fed, WellFormed;
      ghost var s := View();
      ghost var disk := storage.fs.files;
      UndisturbedAssembly(zstd, s.(issued := multiset{record}), h, record, faults);
      var path := Assemble(storage.fs, record, faults, zstd);
      if path.Some? {
        assemblies := assemblies + 1;
        published := published + [Publication(record, Fed(disk, record.chunkFiles, record.totalChunks))];
        storage.MarkPublished(record.fileId);
      } else {
        assemblyErrors := assemblyErrors + 1;
      }
    }
  }

  lemma AboutTheRecord(payloads: Payloads, id: string, record: PayloadRecord)
    requires AllWellFormed(payloads) && id in payloads && RecordIfComplete(payloads[id]) == Some(record)
    ensures ListsPatches(record.chunkFiles) && record == payloads[id].record
  {
    assert WellFormed(id, payloads[id]);
    IssuedRecordsListPatches(id, payloads[id]);
  }
}
