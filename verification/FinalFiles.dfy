/** What the published files hold. */
module FinalFiles {
  import opened Disk
  import opened Storage
  import opened Assembler
  import opened Relay
  import opened Links
  import opened Server
  import opened Uploads

  /** The bytes of the last publication of a name. */
  function LastFed(published: seq<Publication>, name: string): Option<seq<bv8>>
    decreases |published|
  {
    if published == [] then None
    else
      var last := published[|published| - 1];
      if last.record.originalName == name then Some(last.fed) else LastFed(published[..|published| - 1], name)
  }

  /** A final file is the decompression of its last publication, or was there from the start. */
  ghost predicate FinalFileAsPublished(zstd: Decoder, initial: Files, s: State, name: string) {
    Final(name) in s.files ==>
      match LastFed(s.published, name)
      case Some(fed) => s.files[Final(name)] == Output(zstd, fed)
      case None => Final(name) in initial && s.files[Final(name)] == initial[Final(name)]
  }

  predicate UsesNames(names: set<string>, step: Step) { step.OpenStore? ==> step.chunk.originalName in names }

  /** Nobody starts to assemble a name that another handler is still assembling. */
  predicate AssembliesApart(s: State, step: Step) {
    step.Open? ==> forall h :: h in s.jobs ==> s.jobs[h].record.originalName != step.record.originalName
  }

  ghost predicate OneAssemblyAtATime(zstd: Decoder, s: State, steps: seq<Step>) {
    forall k :: 0 <= k < |steps| ==> AssembliesApart(Run(zstd, s, steps[..k]), steps[k])
  }

  /** No name in use is another name in use followed by ".part". */
  ghost predicate NamesApart(names: set<string>) {
    forall m, n :: m in names && n in names ==> n != m + ".part"
  }

  // ----- The invariant -----

  predicate NamesIn(names: set<string>, s: State) {
    && (forall h :: h in s.stores ==> s.stores[h].chunk.originalName in names)
    && (forall c :: c in s.written ==> c.originalName in names)
    && (forall id :: id in s.payloads ==> s.payloads[id].record.originalName in names)
    && (forall r :: r in s.issued ==> r.originalName in names)
    && (forall h :: h in s.jobs ==> s.jobs[h].record.originalName in names)
  }

  /** A part file holds what has been decompressed, and its handler still has it. */
  predicate Staging(zstd: Decoder, files: Files, job: Job) {
    var part := Part(job.record.originalName);
    && part in files && job.file.link == Some(part)
    && (job.ok ==>
          && files[part] == Output(zstd, job.input) && job.file.offset == |files[part]|
          && job.pending == Pending(zstd, job.input))
  }

  ghost predicate JobsStaging(zstd: Decoder, files: Files, jobs: map<nat, Job>) {
    && (forall h :: h in jobs ==> Staging(zstd, files, jobs[h]))
    && (forall h, k :: h in jobs && k in jobs && h != k ==> jobs[h].record.originalName != jobs[k].record.originalName)
  }

  ghost predicate FinalsAsPublished(zstd: Decoder, initial: Files, s: State, names: set<string>) {
    forall name :: name in names ==> FinalFileAsPublished(zstd, initial, s, name)
  }

  ghost predicate Orderly(zstd: Decoder, initial: Files, names: set<string>, s: State) {
    && NamesIn(names, s) && LinksSound(s)
    && JobsStaging(zstd, s.files, s.jobs)
    && FinalsAsPublished(zstd, initial, s, names)
  }

  /** The part files of all names in use but these are as they were. */
  predicate PartsKept(names: set<string>, files: Files, files': Files, but: set<string>) {
    forall n :: n in names && n !in but && Part(n) in files ==> Part(n) in files' && files'[Part(n)] == files[Part(n)]
  }

  predicate FinalsKept(names: set<string>, files: Files, files': Files) {
    forall n :: n in names && Final(n) in files' ==> Final(n) in files && files'[Final(n)] == files[Final(n)]
  }

  lemma StagingKept(
      zstd: Decoder, names: set<string>, files: Files, files': Files, jobs: map<nat, Job>, but: set<string>)
    requires JobsStaging(zstd, files, jobs) && PartsKept(names, files, files', but)
    requires forall h :: h in jobs ==> jobs[h].record.originalName in names && jobs[h].record.originalName !in but
    ensures JobsStaging(zstd, files', jobs)
  {
    hide Output, Pending;
    forall h | h in jobs
      ensures Staging(zstd, files', jobs[h])
    {
      assert Staging(zstd, files, jobs[h]);
    }
  }

  lemma FinalsStay(zstd: Decoder, initial: Files, s: State, s': State, names: set<string>)
    requires FinalsAsPublished(zstd, initial, s, names) && FinalsKept(names, s.files, s'.files)
    requires s'.published == s.published
    ensures FinalsAsPublished(zstd, initial, s', names)
  {
    hide LastFed, Output;
    forall name | name in names
      ensures FinalFileAsPublished(zstd, initial, s', name)
    {
      assert FinalFileAsPublished(zstd, initial, s, name);
    }
  }

  /** Handles on part files that are still there are not relinked. */
  lemma SameHandles(zstd: Decoder, s: State, files: Files)
    requires forall h :: h in s.jobs ==> Staging(zstd, files, s.jobs[h])
    ensures Relinked(s, files).jobs == s.jobs
  {
    hide Output, Pending;
    var jobs := Relinked(s, files).jobs;
    forall h | h in s.jobs
      ensures h in jobs && jobs[h] == s.jobs[h]
    {
      assert Staging(zstd, files, s.jobs[h]);
    }
  }

  lemma SameHandlesMoved(zstd: Decoder, s: State, from: Path, to: Path)
    requires from in s.files
    requires forall h :: h in s.jobs ==>
               Staging(zstd, s.files, s.jobs[h])
               && Part(s.jobs[h].record.originalName) != from && Part(s.jobs[h].record.originalName) != to
    ensures Moved(s, from, to).jobs == s.jobs
  {
    hide Output, Pending;
    var jobs := Moved(s, from, to).jobs;
    forall h | h in s.jobs
      ensures h in jobs && jobs[h] == s.jobs[h]
    {
      assert Staging(zstd, s.files, s.jobs[h]);
    }
  }

  // ----- Names -----

  lemma NamesAfterEntering(names: set<string>, s: State, chunk: ChunkData, now: int)
    requires NamesIn(names, s) && chunk in s.written && chunk.index < chunk.totalChunks
    ensures NamesIn(names, ChunkEntered(s, chunk, now))
  {
    hide RecordIfComplete;
    EnteredName(s.payloads, chunk, now, s.defaultTtl);
  }

  lemma EnteredName(payloads: Payloads, chunk: ChunkData, now: int, ttl: int)
    requires chunk.index < chunk.totalChunks
    ensures var payloads' := Registered(payloads, chunk, now, ttl);
            && payloads'.Keys == payloads.Keys + {chunk.fileId}
            && (forall id :: id in payloads && id != chunk.fileId ==> payloads'[id] == payloads[id])
            && (payloads'[chunk.fileId].record.originalName == chunk.originalName
                || (chunk.fileId in payloads
                    && payloads'[chunk.fileId].record.originalName == payloads[chunk.fileId].record.originalName))
            && (RecordIfComplete(payloads'[chunk.fileId]).Some? ==>
                  RecordIfComplete(payloads'[chunk.fileId]) == Some(payloads'[chunk.fileId].record))
  {}

  lemma NamesInTable(names: set<string>, s: State, payloads: Payloads)
    requires NamesIn(names, s)
    requires forall id :: id in payloads ==> id in s.payloads && payloads[id].record == s.payloads[id].record
    ensures NamesIn(names, s.(payloads := payloads))
  {}

  lemma NamesOfHandlers(names: set<string>, s: State, s': State)
    requires NamesIn(names, s) && SameChunks(s.stores, s'.stores)
    requires forall h :: h in s'.jobs ==> h in s.jobs && s'.jobs[h].record == s.jobs[h].record
    requires s'.payloads == s.payloads
    requires forall c :: c in s'.written ==> c in s.written || exists h :: h in s.stores && s.stores[h].chunk == c
    requires forall r :: r in s'.issued ==> r in s.issued
    ensures NamesIn(names, s')
  {}

  // ----- Steps -----

  lemma RelinkedIsOrderly(zstd: Decoder, initial: Files, names: set<string>, s: State, files: Files, but: set<string>)
    requires Orderly(zstd, initial, names, s)
    requires PartsKept(names, s.files, files, but) && FinalsKept(names, s.files, files)
    requires forall h :: h in s.jobs ==> s.jobs[h].record.originalName !in but
    ensures Orderly(zstd, initial, names, Relinked(s, files))
  {
    hide LinksSound, FinalsAsPublished, Staging, PartsKept, FinalsKept;
    RelinkedLinks(s, files);
    StagingKept(zstd, names, s.files, files, s.jobs, but);
    SameHandles(zstd, s, files);
    FinalsStay(zstd, initial, s, Relinked(s, files), names);
    RelinkedChunks(s, files);
    NamesOfHandlers(names, s, Relinked(s, files));
  }

  lemma FilesChange(zstd: Decoder, initial: Files, names: set<string>, s: State, s': State)
    requires Orderly(zstd, initial, names, s) && NamesIn(names, s') && LinksSound(s')
    requires PartsKept(names, s.files, s'.files, {}) && FinalsKept(names, s.files, s'.files)
    requires s'.jobs == s.jobs && s'.published == s.published
    ensures Orderly(zstd, initial, names, s')
  {
    hide LinksSound, FinalsAsPublished, Staging, PartsKept, FinalsKept;
    StagingKept(zstd, names, s.files, s'.files, s.jobs, {});
    FinalsStay(zstd, initial, s, s', names);
  }

  /** Neither parts nor finals are among the patches and their temporary files. */
  ghost predicate StoredKept(files: Files, files': Files) {
    forall n: string ::
      (Stored(n) in files <==> Stored(n) in files') && (Stored(n) in files ==> files'[Stored(n)] == files[Stored(n)])
  }

  lemma StoredFilesKept(names: set<string>, files: Files, files': Files)
    requires StoredKept(files, files')
    ensures PartsKept(names, files, files', {}) && FinalsKept(names, files, files')
  {}

  lemma OpenStoreIsOrderly(zstd: Decoder, initial: Files, names: set<string>, s: State, h: nat, chunk: ChunkData)
    requires Orderly(zstd, initial, names, s) && chunk.originalName in names
    ensures Orderly(zstd, initial, names, StoreOpened(s, h, chunk))
  {
    hide FinalsAsPublished, JobsStaging, PartsKept, FinalsKept;
    var s' := StoreOpened(s, h, chunk);
    StoredFilesKept(names, s.files, s'.files);
    FilesChange(zstd, initial, names, s, s');
  }

  lemma WriteStoreIsOrderly(zstd: Decoder, initial: Files, names: set<string>, s: State, h: nat, size: nat)
    requires Orderly(zstd, initial, names, s) && h in s.stores && CanWrite(s.stores[h])
    ensures Orderly(zstd, initial, names, StoreWritten(s, h, size))
  {
    hide FinalsAsPublished, JobsStaging, PartsKept, FinalsKept, Overwritten;
    var s' := StoreWritten(s, h, size);
    assert StoreLink(s.stores[h]);
    StoredFilesKept(names, s.files, s'.files);
    FilesChange(zstd, initial, names, s, s');
  }

  lemma StoreEndsOrderly(zstd: Decoder, initial: Files, names: set<string>, s: State, h: nat)
    requires Orderly(zstd, initial, names, s)
    ensures Orderly(zstd, initial, names, s.(stores := s.stores - {h}))
  {
    hide FinalsAsPublished, JobsStaging, PartsKept, FinalsKept, StoreLink, JobLink;
    StoredFilesKept(names, s.files, s.files);
    FilesChange(zstd, initial, names, s, s.(stores := s.stores - {h}));
  }

  lemma FailedStoreIsOrderly(zstd: Decoder, initial: Files, names: set<string>, s: State, h: nat)
    requires Orderly(zstd, initial, names, s) && h in s.stores
    ensures Orderly(zstd, initial, names, StoreFailed(s, h))
  {
    hide Orderly, Relinked, PartsKept, FinalsKept;
    StoreEndsOrderly(zstd, initial, names, s, h);
    var files := s.files - {TemporaryOf(s.stores[h].chunk)};
    StoredFilesKept(names, s.files, files);
    RelinkedIsOrderly(zstd, initial, names, s.(stores := s.stores - {h}), files, {});
  }

  lemma CloseStoreIsOrderly(zstd: Decoder, initial: Files, names: set<string>, s: State, h: nat, renameOk: bool)
    requires Orderly(zstd, initial, names, s) && h in s.stores
    ensures Orderly(zstd, initial, names, StoreClosed(s, h, renameOk))
  {
    hide FinalsAsPublished, Staging, PartsKept, FinalsKept, StoreLink, JobLink, Moved;
    var chunk := s.stores[h].chunk;
    var ended := s.(stores := s.stores - {h});
    StoreEndsOrderly(zstd, initial, names, s, h);
    if renameOk && TemporaryOf(chunk) in s.files {
      var moved := Moved(ended, TemporaryOf(chunk), PatchOf(chunk));
      MovedLinks(ended, TemporaryOf(chunk), PatchOf(chunk));
      MovedKeeps(ended, TemporaryOf(chunk), PatchOf(chunk));
      MovedChunks(ended, TemporaryOf(chunk), PatchOf(chunk));
      SameHandlesMoved(zstd, ended, TemporaryOf(chunk), PatchOf(chunk));
      StoredFilesKept(names, s.files, moved.files);
      var s' := moved.(written := s.written + multiset{chunk});
      NamesOfHandlers(names, s, s');
      LinksOfHandles(moved, s');
      FilesChange(zstd, initial, names, ended, s');
    }
  }

  lemma LinksOfHandles(s: State, s': State)
    requires LinksSound(s) && s'.stores == s.stores && s'.jobs == s.jobs
    ensures LinksSound(s')
  {}

  lemma JobJoins(zstd: Decoder, initial: Files, names: set<string>, s: State, h: nat, job: Job)
    requires Orderly(zstd, initial, names, s) && Staging(zstd, s.files, job) && job.record.originalName in names
    requires forall k :: k in s.jobs && k != h ==> s.jobs[k].record.originalName != job.record.originalName
    ensures Orderly(zstd, initial, names, s.(jobs := s.jobs[h := job]))
  {
    hide LastFed, Output, Staging, StoreLink, FinalFileAsPublished;
    StagingLink(zstd, s.files, job);
    FinalsStay(zstd, initial, s, s.(jobs := s.jobs[h := job]), names);
  }

  lemma StagingLink(zstd: Decoder, files: Files, job: Job)
    requires Staging(zstd, files, job)
    ensures JobLink(job)
  {
    hide Output, Pending;
  }

  lemma JobLeaves(zstd: Decoder, initial: Files, names: set<string>, s: State, h: nat)
    requires Orderly(zstd, initial, names, s)
    ensures Orderly(zstd, initial, names, s.(jobs := s.jobs - {h}))
  {
    hide LastFed, Output, Staging, StoreLink, JobLink, FinalFileAsPublished;
    FinalsStay(zstd, initial, s, s.(jobs := s.jobs - {h}), names);
  }

  /** A change to the part file of one name, which nobody is assembling. */
  lemma PartChanges(zstd: Decoder, initial: Files, names: set<string>, s: State, name: string, files: Files)
    requires Orderly(zstd, initial, names, s) && NamesApart(names) && name in names
    requires files - {Part(name)} == s.files - {Part(name)}
    requires forall h :: h in s.jobs ==> s.jobs[h].record.originalName != name
    ensures Orderly(zstd, initial, names, s.(files := files))
    ensures PartsKept(names, s.files, files, {name}) && FinalsKept(names, s.files, files)
  {
    hide FinalsAsPublished, Staging, StoreLink, JobLink;
    AllButPart(names, s.files, files, name);
    StagingKept(zstd, names, s.files, files, s.jobs, {name});
    FinalsStay(zstd, initial, s, s.(files := files), names);
  }

  lemma AllButPart(names: set<string>, files: Files, files': Files, name: string)
    requires NamesApart(names) && name in names && files' - {Part(name)} == files - {Part(name)}
    ensures PartsKept(names, files, files', {name}) && FinalsKept(names, files, files')
  {
    forall n | n in names
      ensures n != name ==> Part(n) != Part(name)
      ensures Final(n) != Part(name)
    {
      PartsDiffer(n, name);
    }
    forall p | p != Part(name)
      ensures p in files' <==> p in files
      ensures p in files ==> files'[p] == files[p]
    {
      assert (p in files <==> p in files - {Part(name)}) && (p in files' <==> p in files' - {Part(name)});
      assert p in files ==> files[p] == (files - {Part(name)})[p];
      assert p in files' ==> files'[p] == (files' - {Part(name)})[p];
    }
  }

  lemma OpenIsOrderly(
      zstd: Decoder, initial: Files, names: set<string>, s: State, h: nat, record: PayloadRecord,
      openFails: bool, allocFails: bool)
    requires Orderly(zstd, initial, names, s) && NamesApart(names) && record in s.issued && h !in s.jobs
    requires forall k :: k in s.jobs ==> s.jobs[k].record.originalName != record.originalName
    ensures Orderly(zstd, initial, names, Opened(s, h, record, openFails, allocFails))
  {
    hide Relinked, JobsStaging, FinalsAsPublished, StoreLink, JobLink, Output, PartsKept, FinalsKept, NamesApart;
    var name := record.originalName;
    var taken := s.(issued := s.issued - multiset{record});
    StoredFilesKept(names, s.files, s.files);
    FilesChange(zstd, initial, names, s, taken);
    if |record.chunkFiles| == record.totalChunks && !openFails {
      if allocFails {
        PartChanges(zstd, initial, names, taken, name, s.files - {Part(name)});
        RelinkedIsOrderly(zstd, initial, names, taken, s.files - {Part(name)}, {name});
      } else {
        var job := Job(record, Handle(Some(Part(name)), 0), 0, [], 0, true);
        PartChanges(zstd, initial, names, taken, name, s.files[Part(name) := []]);
        NothingDecoded(zstd);
        JobJoins(zstd, initial, names, taken.(files := s.files[Part(name) := []]), h, job);
      }
    }
  }

  lemma NothingDecoded(zstd: Decoder)
    ensures Output(zstd, []) == [] && Pending(zstd, []) == 0
  {}

  lemma ReadStages(zstd: Decoder, s: State, h: nat, unreadable: bool, unwritable: bool)
    requires h in s.jobs && CanRead(s.jobs[h]) && Staging(zstd, s.files, s.jobs[h])
    ensures var s', record := ChunkRead(zstd, s, h, unreadable, unwritable), s.jobs[h].record;
            && s' == s.(files := s'.files, jobs := s.jobs[h := s'.jobs[h]]) && s'.jobs[h].record == record
            && Staging(zstd, s'.files, s'.jobs[h])
            && s'.files - {Part(record.originalName)} == s.files - {Part(record.originalName)}
  {
    hide Output, Produced, Pending, Present, Content, Overwritten;
    var job := s.jobs[h];
    var content := Content(s.files, job.record.chunkFiles[job.next]);
    FeedingChunk(zstd, job.input, content);
    WriteAtTheEnd(Output(zstd, job.input), Produced(zstd, job.input, content));
  }

  lemma ReadIsOrderly(
      zstd: Decoder, initial: Files, names: set<string>, s: State, h: nat, unreadable: bool, unwritable: bool)
    requires Orderly(zstd, initial, names, s) && NamesApart(names) && h in s.jobs && CanRead(s.jobs[h])
    ensures Orderly(zstd, initial, names, ChunkRead(zstd, s, h, unreadable, unwritable))
  {
    hide Orderly, Staging, ChunkRead, NamesApart, PartsKept, FinalsKept;
    var s' := ChunkRead(zstd, s, h, unreadable, unwritable);
    JobStages(zstd, initial, names, s, h);
    ReadStages(zstd, s, h, unreadable, unwritable);
    JobLeaves(zstd, initial, names, s, h);
    var left := s.(jobs := s.jobs - {h});
    PartChanges(zstd, initial, names, left, s.jobs[h].record.originalName, s'.files);
    JobJoins(zstd, initial, names, left.(files := s'.files), h, s'.jobs[h]);
    assert left.jobs[h := s'.jobs[h]] == s'.jobs;
  }

  lemma JobStages(zstd: Decoder, initial: Files, names: set<string>, s: State, h: nat)
    requires Orderly(zstd, initial, names, s) && h in s.jobs
    ensures Staging(zstd, s.files, s.jobs[h]) && s.jobs[h].record.originalName in names
    ensures forall k :: k in s.jobs && k != h ==> s.jobs[k].record.originalName != s.jobs[h].record.originalName
  {
    hide Staging, FinalsAsPublished, StoreLink, JobLink;
  }

  lemma PublicationCounts(zstd: Decoder, initial: Files, s: State, s': State, names: set<string>, p: Publication)
    requires FinalsAsPublished(zstd, initial, s, names) && s'.published == s.published + [p]
    requires var final := Final(p.record.originalName); final in s'.files && s'.files[final] == Output(zstd, p.fed)
    requires forall n :: n in names && n != p.record.originalName && Final(n) in s'.files ==>
               Final(n) in s.files && s'.files[Final(n)] == s.files[Final(n)]
    ensures FinalsAsPublished(zstd, initial, s', names)
  {
    hide Output;
    assert s'.published[..|s'.published| - 1] == s.published;
    forall name | name in names
      ensures FinalFileAsPublished(zstd, initial, s', name)
    {
      assert FinalFileAsPublished(zstd, initial, s, name);
    }
  }

  lemma FinalChanges(
      zstd: Decoder, initial: Files, names: set<string>, s: State, s': State, p: Publication)
    requires Orderly(zstd, initial, names, s) && NamesApart(names) && p.record.originalName in names
    requires NamesIn(names, s') && LinksSound(s') && s'.jobs == s.jobs && s'.published == s.published + [p]
    requires forall h :: h in s.jobs ==> s.jobs[h].record.originalName != p.record.originalName
    requires var name := p.record.originalName;
             && Final(name) in s'.files && s'.files[Final(name)] == Output(zstd, p.fed)
             && StoredKept(s.files - {Part(name), Final(name)}, s'.files - {Part(name), Final(name)})
    ensures Orderly(zstd, initial, names, s')
  {
    hide FinalsAsPublished, Staging, LinksSound, Output;
    var name := p.record.originalName;
    forall n | n in names
      ensures n != name ==>
                && Part(n) != Part(name) && Part(n) != Final(name)
                && Final(n) != Part(name) && Final(n) != Final(name)
    {
      PartsDiffer(n, name);
    }
    AroundOneName(s.files, s'.files, Part(name), Final(name));
    assert PartsKept(names, s.files, s'.files, {name});
    StagingKept(zstd, names, s.files, s'.files, s.jobs, {name});
    PublicationCounts(zstd, initial, s, s', names, p);
  }

  lemma AroundOneName(files: Files, files': Files, p: Path, q: Path)
    requires StoredKept(files - {p, q}, files' - {p, q})
    ensures forall n :: Stored(n) != p && Stored(n) != q ==>
              && (Stored(n) in files <==> Stored(n) in files')
              && (Stored(n) in files ==> files'[Stored(n)] == files[Stored(n)])
  {
    forall n | Stored(n) != p && Stored(n) != q
      ensures Stored(n) in files <==> Stored(n) in files'
      ensures Stored(n) in files ==> files'[Stored(n)] == files[Stored(n)]
    {
      assert Stored(n) in files - {p, q} <==> Stored(n) in files;
      assert Stored(n) in files' - {p, q} <==> Stored(n) in files';
      assert Stored(n) in files ==> (files - {p, q})[Stored(n)] == files[Stored(n)];
      assert Stored(n) in files' ==> (files' - {p, q})[Stored(n)] == files'[Stored(n)];
    }
  }

  lemma PublishIsOrderly(
      zstd: Decoder, initial: Files, names: set<string>, s: State, h: nat,
      syncFails: bool, renameFails: bool, leftover: set<Path>)
    requires Orderly(zstd, initial, names, s) && NamesApart(names) && h in s.jobs
    ensures Orderly(zstd, initial, names, JobEnded(s, h, syncFails, renameFails, leftover))
  {
    hide Relinked, Moved, Orderly, Output, Pending, RemoveDirectories, NamesApart, PartsKept, FinalsKept;
    var job, name := s.jobs[h], s.jobs[h].record.originalName;
    var part, final := Part(name), Final(name);
    JobStages(zstd, initial, names, s, h);
    JobLeaves(zstd, initial, names, s, h);
    var ended := s.(jobs := s.jobs - {h});
    if !job.ok || job.pending != 0 || syncFails {
      PartChanges(zstd, initial, names, ended, name, s.files - {part});
      RelinkedIsOrderly(zstd, initial, names, ended, s.files - {part}, {name});
    } else if !renameFails {
      PublishedIsOrderly(zstd, initial, names, ended, job, leftover);
    }
  }

  lemma PublishedIsOrderly(
      zstd: Decoder, initial: Files, names: set<string>, s: State, job: Job, leftover: set<Path>)
    requires Orderly(zstd, initial, names, s) && NamesApart(names) && job.record.originalName in names
    requires Staging(zstd, s.files, job) && job.ok
    requires forall h :: h in s.jobs ==> s.jobs[h].record.originalName != job.record.originalName
    ensures var moved := Moved(s, Part(job.record.originalName), Final(job.record.originalName));
            Orderly(zstd, initial, names,
                    Relinked(moved, RemoveDirectories(moved.files, {job.record.fileId}, leftover))
                    .(unmarked := s.unmarked + multiset{job.record.fileId},
                      published := s.published + [Publication(job.record, job.input)]))
  {
    hide Relinked, Moved, Orderly, Staging, RemoveDirectories, NamesApart, PartsKept, FinalsKept, StoredKept;
    RenamedIsOrderly(zstd, initial, names, s, job);
    StagedContent(zstd, s.files, job);
    var moved := Moved(s, Part(job.record.originalName), Final(job.record.originalName));
    var now := moved.(unmarked := s.unmarked + multiset{job.record.fileId},
                      published := s.published + [Publication(job.record, job.input)]);
    var files := RemoveDirectories(moved.files, {job.record.fileId}, leftover);
    DirectoriesKeepStored(moved.files, {job.record.fileId}, leftover);
    StoredFilesKept(names, moved.files, files);
    RelinkedIsOrderly(zstd, initial, names, now, files, {});
    RelinkedLater(moved, files, now);
  }

  lemma RenamedIsOrderly(zstd: Decoder, initial: Files, names: set<string>, s: State, job: Job)
    requires Orderly(zstd, initial, names, s) && NamesApart(names) && job.record.originalName in names
    requires Staging(zstd, s.files, job) && job.ok
    requires forall h :: h in s.jobs ==> s.jobs[h].record.originalName != job.record.originalName
    ensures Orderly(zstd, initial, names,
                    Moved(s, Part(job.record.originalName), Final(job.record.originalName))
                    .(unmarked := s.unmarked + multiset{job.record.fileId},
                      published := s.published + [Publication(job.record, job.input)]))
  {
    hide Moved, Orderly, Staging, LinksSound, NamesIn;
    var name := job.record.originalName;
    var part, final := Part(name), Final(name);
    StagedContent(zstd, s.files, job);
    PartsDiffer(name, name);
    var moved := Moved(s, part, final);
    var now := moved.(unmarked := s.unmarked + multiset{job.record.fileId},
                      published := s.published + [Publication(job.record, job.input)]);
    RenamingKeepsJobs(zstd, initial, names, s, name);
    MovedKeeps(s, part, final);
    LaterFields(names, moved, now);
    assert now.files - {part, final} == s.files - {part, final};
    FinalChanges(zstd, initial, names, s, now, Publication(job.record, job.input));
  }

  lemma RenamingKeepsJobs(zstd: Decoder, initial: Files, names: set<string>, s: State, name: string)
    requires Orderly(zstd, initial, names, s) && NamesApart(names) && name in names && Part(name) in s.files
    requires forall h :: h in s.jobs ==> s.jobs[h].record.originalName != name
    ensures var moved := Moved(s, Part(name), Final(name));
            moved.jobs == s.jobs && NamesIn(names, moved) && LinksSound(moved)
  {
    hide Moved, Staging, LinksSound, FinalsAsPublished;
    var part, final := Part(name), Final(name);
    forall h | h in s.jobs
      ensures Part(s.jobs[h].record.originalName) != part && Part(s.jobs[h].record.originalName) != final
    {
      PartsDiffer(s.jobs[h].record.originalName, name);
    }
    MovedLinks(s, part, final);
    MovedKeeps(s, part, final);
    MovedChunks(s, part, final);
    SameHandlesMoved(zstd, s, part, final);
    NamesOfHandlers(names, s, Moved(s, part, final));
  }

  lemma LaterFields(names: set<string>, s: State, s': State)
    requires NamesIn(names, s) && LinksSound(s) && s' == s.(unmarked := s'.unmarked, published := s'.published)
    ensures NamesIn(names, s') && LinksSound(s')
  {}

  lemma StagedContent(zstd: Decoder, files: Files, job: Job)
    requires Staging(zstd, files, job) && job.ok
    ensures var part := Part(job.record.originalName); part in files && files[part] == Output(zstd, job.input)
  {
    hide Output, Pending;
  }

  lemma DirectoriesKeepStored(files: Files, ids: set<string>, left: set<Path>)
    ensures StoredKept(files, RemoveDirectories(files, ids, left))
  {}

  /** Relinking does not look at what else has happened. */
  lemma RelinkedLater(s: State, files: Files, s': State)
    requires s' == s.(unmarked := s'.unmarked, published := s'.published)
    ensures Relinked(s', files) == Relinked(s, files).(unmarked := s'.unmarked, published := s'.published)
  {}

  lemma OthersAreOrderly(zstd: Decoder, initial: Files, names: set<string>, s: State, step: Step)
    requires Orderly(zstd, initial, names, s)
    requires step.Register? || step.Mark? || step.UpdateTtl? || step.Cleanup? || step.RemoveOld?
    ensures Orderly(zstd, initial, names, Apply(zstd, s, step))
  {
    hide Relinked, JobsStaging, FinalsAsPublished, StoreLink, JobLink, PartsKept, FinalsKept, RemoveDirectories,
         WithoutOld, ChunkEntered, NamesIn;
    StoredFilesKept(names, s.files, s.files);
    match step
    case Register(chunk, now) =>
      if chunk in s.written && chunk.index < chunk.totalChunks {
        NamesAfterEntering(names, s, chunk, now);
        EnteringFrame(s, chunk, now);
        FilesChange(zstd, initial, names, s, ChunkEntered(s, chunk, now));
      }
    case Mark(fileId) =>
      NamesInTable(names, s, s.payloads - {fileId});
      TableChanges(zstd, initial, names, s, s.payloads - {fileId}, s.unmarked - multiset{fileId}, s.defaultTtl);
    case UpdateTtl(ttl) =>
      NamesInTable(names, s, WithTtl(s.payloads, ttl));
      TableChanges(zstd, initial, names, s, WithTtl(s.payloads, ttl), s.unmarked, ttl);
    case Cleanup(now, left) =>
      NamesInTable(names, s, WithoutExpired(s.payloads, now));
      TableChanges(zstd, initial, names, s, WithoutExpired(s.payloads, now), s.unmarked, s.defaultTtl);
      var files := RemoveDirectories(s.files, ExpiredIds(s.payloads, now), left);
      DirectoriesKeepStored(s.files, ExpiredIds(s.payloads, now), left);
      StoredFilesKept(names, s.files, files);
      RelinkedIsOrderly(zstd, initial, names, s.(payloads := WithoutExpired(s.payloads, now)), files, {});
    case RemoveOld(aged) =>
      OldFilesGo(names, s.files, aged);
      RelinkedIsOrderly(zstd, initial, names, s, WithoutOld(s.files, aged), {});
  }

  lemma EnteringFrame(s: State, chunk: ChunkData, now: int)
    requires chunk.index < chunk.totalChunks
    ensures var s' := ChunkEntered(s, chunk, now);
            s' == s.(payloads := s'.payloads, written := s'.written, issued := s'.issued)
  {
    hide Registered;
  }

  lemma TableChanges(
      zstd: Decoder, initial: Files, names: set<string>, s: State, payloads: Payloads, unmarked: multiset<string>,
      ttl: int)
    requires Orderly(zstd, initial, names, s) && NamesIn(names, s.(payloads := payloads))
    ensures Orderly(zstd, initial, names, s.(payloads := payloads, unmarked := unmarked, defaultTtl := ttl))
    ensures Orderly(zstd, initial, names, s.(payloads := payloads))
  {
    hide JobsStaging, FinalsAsPublished, StoreLink, JobLink, PartsKept, FinalsKept;
    StoredFilesKept(names, s.files, s.files);
    FilesChange(zstd, initial, names, s, s.(payloads := payloads));
    FilesChange(zstd, initial, names, s, s.(payloads := payloads, unmarked := unmarked, defaultTtl := ttl));
  }

  lemma OldFilesGo(names: set<string>, files: Files, aged: set<string>)
    ensures PartsKept(names, files, WithoutOld(files, aged), {}) && FinalsKept(names, files, WithoutOld(files, aged))
  {
    forall n | n in names
      ensures EndsInPart(n + PART)
    {
      PartsDiffer(n, n);
    }
  }

  lemma StepIsOrderly(zstd: Decoder, initial: Files, names: set<string>, s: State, step: Step)
    requires Orderly(zstd, initial, names, s) && NamesApart(names)
    requires UsesNames(names, step) && AssembliesApart(s, step)
    ensures Orderly(zstd, initial, names, Apply(zstd, s, step))
  {
    hide Orderly, NamesApart, Opened, ChunkRead, JobEnded, ChunkEntered, StoreOpened, StoreWritten, StoreClosed,
         StoreFailed, Relinked, CrcsMatch, CanRead, CanWrite, WithTtl, WithoutExpired, IndexInRange;
    match step
    case OpenStore(h, chunk, _, _) => OpenStoreIsOrderly(zstd, initial, names, s, h, chunk);
    case WriteStore(h, size, _) =>
      if h in s.stores && CanWrite(s.stores[h]) {
        WriteStoreIsOrderly(zstd, initial, names, s, h, size);
        FailedStoreIsOrderly(zstd, initial, names, s, h);
      }
    case CloseStore(h, _, renameOk) =>
      if h in s.stores {
        CloseStoreIsOrderly(zstd, initial, names, s, h, renameOk);
        FailedStoreIsOrderly(zstd, initial, names, s, h);
      }
    case Open(h, record, openFails, allocFails) =>
      if h !in s.jobs && record in s.issued {
        OpenIsOrderly(zstd, initial, names, s, h, record, openFails, allocFails);
      }
    case ReadChunk(h, unreadable, unwritable) =>
      if h in s.jobs && CanRead(s.jobs[h]) {
        ReadIsOrderly(zstd, initial, names, s, h, unreadable, unwritable);
      }
    case Publish(h, syncFails, renameFails, leftover) =>
      if h in s.jobs {
        PublishIsOrderly(zstd, initial, names, s, h, syncFails, renameFails, leftover);
      }
    case _ => OthersAreOrderly(zstd, initial, names, s, step);
  }

  lemma {:induction false} RunIsOrderly(
      zstd: Decoder, names: set<string>, files: Files, defaultTtl: int, steps: seq<Step>)
    requires NamesApart(names) && forall step :: step in steps ==> UsesNames(names, step)
    requires OneAssemblyAtATime(zstd, Initial(files, defaultTtl), steps)
    ensures Orderly(zstd, files, names, Run(zstd, Initial(files, defaultTtl), steps))
    decreases |steps|
  {
    hide UsesNames, AssembliesApart, Orderly, Apply, NamesApart;
    if steps == [] {
      InitialIsOrderly(zstd, names, files, defaultTtl);
    } else {
      var init, last := steps[..|steps| - 1], steps[|steps| - 1];
      forall k | 0 <= k < |init|
        ensures AssembliesApart(Run(zstd, Initial(files, defaultTtl), init[..k]), init[k])
      {
        assert init[..k] == steps[..k];
      }
      RunIsOrderly(zstd, names, files, defaultTtl, init);
      var s := Run(zstd, Initial(files, defaultTtl), init);
      assert last in steps && AssembliesApart(s, last);
      StepIsOrderly(zstd, files, names, s, last);
    }
  }

  lemma InitialIsOrderly(zstd: Decoder, names: set<string>, files: Files, defaultTtl: int)
    ensures Orderly(zstd, files, names, Initial(files, defaultTtl))
  {}
}
