/** Where the handles of the server's open files can lead. */
module Links {
  import opened Disk
  import opened Storage
  import opened Assembler
  import opened Relay

  /** A store's handle leads to its temporary file, or to the patch once another store has renamed it;
      an assembly's handle stays among the stored files. */
  predicate StoreLink(store: Store) {
    match store.file.link
    case None => true
    case Some(p) => p == TemporaryOf(store.chunk) || p == PatchOf(store.chunk)
  }

  predicate JobLink(job: Job) { job.file.link.Some? ==> job.file.link.value.Stored? }

  predicate LinksSound(s: State) {
    && (forall h :: h in s.stores ==> StoreLink(s.stores[h]))
    && (forall h :: h in s.jobs ==> JobLink(s.jobs[h]))
  }

  lemma RelinkedLinks(s: State, files: Files)
    requires LinksSound(s)
    ensures LinksSound(Relinked(s, files))
  {}

  lemma MovedLinks(s: State, from: Path, to: Path)
    requires LinksSound(s) && from in s.files
    requires (from.Temporary? && to == Patch(from.fileId, from.index)) || (from.Stored? && to.Stored?)
    ensures LinksSound(Moved(s, from, to))
  {}

  lemma OpenedStoreIsLinked(s: State, h: nat, chunk: ChunkData)
    requires LinksSound(s)
    ensures LinksSound(StoreOpened(s, h, chunk))
  {
    hide JobLink;
  }

  lemma WrittenStoreIsLinked(s: State, h: nat, size: nat)
    requires LinksSound(s) && h in s.stores && CanWrite(s.stores[h])
    ensures LinksSound(StoreWritten(s, h, size))
  {
    hide JobLink, WriteTo;
  }

  lemma StoresKeepLinks(zstd: Decoder, s: State, step: Step)
    requires LinksSound(s) && (step.OpenStore? || step.WriteStore? || step.CloseStore?)
    ensures LinksSound(Apply(zstd, s, step))
  {
    hide Relinked, Moved, WriteTo, CrcsMatch, IndexInRange;
    if step.h in s.stores {
      var chunk := s.stores[step.h].chunk;
      var ended := s.(stores := s.stores - {step.h});
      RelinkedLinks(ended, s.files - {TemporaryOf(chunk)});
      if TemporaryOf(chunk) in s.files {
        MovedLinks(ended, TemporaryOf(chunk), PatchOf(chunk));
      }
    }
  }

  lemma OpenKeepsLinks(s: State, h: nat, record: PayloadRecord, openFails: bool, allocFails: bool)
    requires LinksSound(s)
    ensures LinksSound(Opened(s, h, record, openFails, allocFails))
  {
    hide Relinked, StoreLink;
    RelinkedLinks(s.(issued := s.issued - multiset{record}), s.files - {Part(record.originalName)});
  }

  lemma ReadKeepsLinks(zstd: Decoder, s: State, h: nat, unreadable: bool, unwritable: bool)
    requires LinksSound(s) && h in s.jobs && CanRead(s.jobs[h])
    ensures LinksSound(ChunkRead(zstd, s, h, unreadable, unwritable))
  {
    hide StoreLink, WriteTo, Content, Present, Produced;
  }

  lemma PublishKeepsLinks(s: State, h: nat, syncFails: bool, renameFails: bool, leftover: set<Path>)
    requires LinksSound(s) && h in s.jobs
    ensures LinksSound(JobEnded(s, h, syncFails, renameFails, leftover))
  {
    hide Relinked, Moved, RemoveDirectories, StoreLink, JobLink;
    var record := s.jobs[h].record;
    var part, final := Part(record.originalName), Final(record.originalName);
    var ended := s.(jobs := s.jobs - {h});
    RelinkedLinks(ended, s.files - {part});
    if part in s.files {
      MovedLinks(ended, part, final);
      var moved := Moved(ended, part, final);
      RelinkedLinks(moved, RemoveDirectories(moved.files, {record.fileId}, leftover));
    }
  }

  lemma OthersKeepLinks(zstd: Decoder, s: State, step: Step)
    requires LinksSound(s) && (step.Register? || step.Mark? || step.UpdateTtl? || step.Cleanup? || step.RemoveOld?)
    ensures LinksSound(Apply(zstd, s, step))
  {
    hide Relinked, Registered, Issues, RemoveDirectories, WithoutOld, WithoutExpired, WithTtl, ExpiredIds,
         StoreLink, JobLink;
    match step
    case Cleanup(now, left) =>
      RelinkedLinks(s.(payloads := WithoutExpired(s.payloads, now)),
                    RemoveDirectories(s.files, ExpiredIds(s.payloads, now), left));
    case RemoveOld(aged) => RelinkedLinks(s, WithoutOld(s.files, aged));
    case _ => {}
  }

  lemma StepKeepsLinks(zstd: Decoder, s: State, step: Step)
    requires LinksSound(s)
    ensures LinksSound(Apply(zstd, s, step))
  {
    hide Relinked, Opened, ChunkRead, JobEnded, ChunkEntered, StoreOpened, StoreWritten, StoreClosed, StoreFailed,
         CrcsMatch, RemoveDirectories, WithoutOld, WithoutExpired, WithTtl, ExpiredIds, CanRead, LinksSound;
    match step
    case OpenStore(_, _, _, _) => StoresKeepLinks(zstd, s, step);
    case WriteStore(_, _, _) => StoresKeepLinks(zstd, s, step);
    case CloseStore(_, _, _) => StoresKeepLinks(zstd, s, step);
    case Open(h, record, openFails, allocFails) => OpenKeepsLinks(s, h, record, openFails, allocFails);
    case ReadChunk(h, unreadable, unwritable) =>
      if h in s.jobs && CanRead(s.jobs[h]) {
        ReadKeepsLinks(zstd, s, h, unreadable, unwritable);
      }
    case Publish(h, syncFails, renameFails, leftover) =>
      if h in s.jobs {
        PublishKeepsLinks(s, h, syncFails, renameFails, leftover);
      }
    case _ => OthersKeepLinks(zstd, s, step);
  }

  lemma {:induction false} RunKeepsLinks(zstd: Decoder, files: Files, defaultTtl: int, steps: seq<Step>)
    ensures LinksSound(Run(zstd, Initial(files, defaultTtl), steps))
    decreases |steps|
  {
    hide Apply;
    if steps == [] {
    } else {
      var init := steps[..|steps| - 1];
      RunKeepsLinks(zstd, files, defaultTtl, init);
      StepKeepsLinks(zstd, Run(zstd, Initial(files, defaultTtl), init), steps[|steps| - 1]);
    }
  }
}
