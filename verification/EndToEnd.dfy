/** From the chunks of one split to what the server publishes. */
module EndToEnd {
  import opened Disk
  import opened Storage
  import opened Assembler
  import opened Links
  import opened Relay
  import opened Server
  import Crc32
  import Chunker
  import ErrorDetection

  /** A file id whose chunks all come from one split. */
  datatype Origin = Origin(id: string, pieces: seq<seq<bv8>>) {
    function Total(): nat { |pieces| }

    function Piece(i: nat): seq<bv8> { if i < |pieces| then pieces[i] else [] }

    /** The first `n` pieces, joined. */
    function Joined(n: nat): seq<bv8> { if n == 0 then [] else Joined(n - 1) + Piece(n - 1) }

    function Data(): seq<bv8> { Joined(|pieces|) }
  }

  /** The chunk is one of the split, with the CRC of its piece; on the way its payload may have
      been damaged in one burst of at most 32 bits. */
  ghost predicate FromSplit(o: Origin, chunk: ChunkData)
  {
    && chunk.fileId == o.id && chunk.totalChunks == o.Total()
    && chunk.payloadCrc == Crc32.Crc(o.Piece(chunk.index))
    && exists start :: ErrorDetection.AgreeOutside(chunk.payload, o.Piece(chunk.index), start, 32)
  }

  ghost predicate Delivers(o: Origin, step: Step) {
    step.OpenStore? && step.chunk.fileId == o.id ==> FromSplit(o, step.chunk)
  }

  /** Nobody starts to store a chunk of this file that another handler is still storing. */
  predicate StoresApart(id: string, s: State, step: Step) {
    step.OpenStore? && step.chunk.fileId == id ==>
      forall h :: h in s.stores ==> TemporaryOf(s.stores[h].chunk) != TemporaryOf(step.chunk)
  }

  ghost predicate OneStoreAtATime(id: string, zstd: Decoder, s: State, steps: seq<Step>) {
    forall k :: 0 <= k < |steps| ==> StoresApart(id, Run(zstd, s, steps[..k]), steps[k])
  }

  // ----- What stays clean -----

  /** The patch file of piece `i` may be missing, but it never holds anything else. */
  predicate Clean(o: Origin, files: Files, i: nat) {
    Patch(o.id, i) in files ==> files[Patch(o.id, i)] == o.Piece(i)
  }

  ghost predicate WrittenClean(o: Origin, written: multiset<ChunkData>, files: Files) {
    forall c :: c in written && c.fileId == o.id ==> c.totalChunks == o.Total() && Clean(o, files, c.index)
  }

  ghost predicate EntryClean(o: Origin, entry: Entry, files: Files) {
    && |entry.record.chunkFiles| == o.Total() && entry.record.totalChunks == o.Total()
    && forall i: nat :: i in entry.received ==> Clean(o, files, i)
  }

  ghost predicate RecordClean(o: Origin, record: PayloadRecord, files: Files) {
    record.totalChunks == o.Total() && NoSlotMissing(record) && forall i: nat :: i < o.Total() ==> Clean(o, files, i)
  }

  ghost predicate IssuedClean(o: Origin, issued: multiset<PayloadRecord>, files: Files) {
    forall r :: r in issued && r.fileId == o.id ==> RecordClean(o, r, files)
  }

  ghost predicate JobClean(o: Origin, job: Job, files: Files) {
    RecordClean(o, job.record, files) && job.input == o.Joined(job.next)
  }

  ghost predicate JobsClean(o: Origin, jobs: map<nat, Job>, files: Files) {
    forall h :: h in jobs && jobs[h].record.fileId == o.id ==> JobClean(o, jobs[h], files)
  }

  ghost predicate AllOriginal(o: Origin, published: seq<Publication>) {
    forall p :: p in published && p.record.fileId == o.id ==> o.pieces != [] && p.fed == o.Data()
  }

  /** What has been entered, issued, read and published of this file. */
  ghost predicate TableClean(o: Origin, s: State) {
    && AllWellFormed(s.payloads)
    && WrittenClean(o, s.written, s.files)
    && (o.id in s.payloads ==> EntryClean(o, s.payloads[o.id], s.files))
    && IssuedClean(o, s.issued, s.files)
    && JobsClean(o, s.jobs, s.files)
    && AllOriginal(o, s.published)
  }

  /** A store writes one whole piece, and its temporary file holds what it has written so far, unless
      that file has been removed. */
  ghost predicate StoreClean(o: Origin, store: Store, files: Files) {
    var chunk, temporary := store.chunk, TemporaryOf(store.chunk);
    && chunk.totalChunks == o.Total() && chunk.payload == o.Piece(chunk.index)
    && store.file.offset <= |chunk.payload|
    && (if temporary in files
        then store.file.link == Some(temporary) && files[temporary] == chunk.payload[..store.file.offset]
        else store.file.link == None)
  }

  ghost predicate StoresClean(o: Origin, stores: map<nat, Store>, files: Files) {
    && (forall h :: h in stores && stores[h].chunk.fileId == o.id ==> StoreClean(o, stores[h], files))
    && (forall h, k :: h in stores && k in stores && h != k && stores[h].chunk.fileId == o.id ==>
          TemporaryOf(stores[h].chunk) != TemporaryOf(stores[k].chunk))
  }

  ghost predicate Faithful(o: Origin, s: State) {
    TableClean(o, s) && StoresClean(o, s.stores, s.files) && LinksSound(s)
  }

  // ----- When files change -----

  /** The patches of this file that are there were there before, with the same content, or are clean. */
  ghost predicate StaysClean(o: Origin, files: Files, files': Files) {
    forall i: nat :: Clean(o, files, i) ==> Clean(o, files', i)
  }

  /** The same work is going on, whatever has become of the handles. */
  ghost predicate SameWork(jobs: map<nat, Job>, jobs': map<nat, Job>) {
    forall h :: h in jobs' ==>
      h in jobs && jobs'[h].record == jobs[h].record && jobs'[h].input == jobs[h].input && jobs'[h].next == jobs[h].next
  }

  lemma RecordStaysClean(o: Origin, record: PayloadRecord, files: Files, files': Files)
    requires RecordClean(o, record, files) && StaysClean(o, files, files')
    ensures RecordClean(o, record, files')
  {
    hide NoSlotMissing, Clean;
  }

  lemma TableStaysClean(o: Origin, s: State, s': State)
    requires TableClean(o, s) && StaysClean(o, s.files, s'.files) && SameWork(s.jobs, s'.jobs)
    requires s'.payloads == s.payloads && s'.written == s.written
    requires s'.issued == s.issued && s'.published == s.published
    ensures TableClean(o, s')
  {
    hide AllWellFormed, RecordClean, Clean, AllOriginal;
    forall r | r in s.issued && r.fileId == o.id
      ensures RecordClean(o, r, s'.files)
    {
      RecordStaysClean(o, r, s.files, s'.files);
    }
    forall h | h in s'.jobs && s'.jobs[h].record.fileId == o.id
      ensures JobClean(o, s'.jobs[h], s'.files)
    {
      assert JobClean(o, s.jobs[h], s.files);
      RecordStaysClean(o, s.jobs[h].record, s.files, s'.files);
    }
  }

  /** A removal of files. */
  predicate Shrinks(files: Files, files': Files) {
    forall p :: p in files' ==> p in files && files'[p] == files[p]
  }

  lemma RelinkedStaysFaithful(o: Origin, s: State, files: Files)
    requires Faithful(o, s) && Shrinks(s.files, files)
    ensures Faithful(o, Relinked(s, files))
  {
    hide TableClean, StoresClean, LinksSound;
    var s' := Relinked(s, files);
    RelinkedLinks(s, files);
    TableStaysClean(o, s, s');
    RelinkedStoresAreClean(o, s, files);
  }

  lemma RelinkedStoresAreClean(o: Origin, s: State, files: Files)
    requires StoresClean(o, s.stores, s.files) && Shrinks(s.files, files)
    ensures StoresClean(o, Relinked(s, files).stores, files)
  {}

  lemma MovedStaysFaithful(o: Origin, s: State, from: Path, to: Path)
    requires Faithful(o, s) && from in s.files
    requires (from.Temporary? && to == Patch(from.fileId, from.index)) || (from.Stored? && to.Stored?)
    requires forall h :: h in s.stores && s.stores[h].chunk.fileId == o.id ==> TemporaryOf(s.stores[h].chunk) != from
    requires to.Patch? && to.fileId == o.id ==> s.files[from] == o.Piece(to.index)
    ensures Faithful(o, Moved(s, from, to))
  {
    hide TableClean, StoresClean, LinksSound;
    var s' := Moved(s, from, to);
    MovedLinks(s, from, to);
    TableStaysClean(o, s, s');
    MovedStoresAreClean(o, s, from, to);
  }

  lemma MovedStoresAreClean(o: Origin, s: State, from: Path, to: Path)
    requires StoresClean(o, s.stores, s.files) && from in s.files && !to.Temporary?
    requires forall h :: h in s.stores && s.stores[h].chunk.fileId == o.id ==> TemporaryOf(s.stores[h].chunk) != from
    ensures StoresClean(o, Moved(s, from, to).stores, Moved(s, from, to).files)
  {}

  // ----- Every step keeps it -----

  lemma CorrectPayload(o: Origin, chunk: ChunkData)
    requires FromSplit(o, chunk) && CrcsMatch(chunk)
    ensures chunk.payload == o.Piece(chunk.index)
  {
    hide CrcsMatch, ErrorDetection.AgreeOutside, Crc32.Crc;
    var start :| ErrorDetection.AgreeOutside(chunk.payload, o.Piece(chunk.index), start, 32);
    DamagedPayloadIsRejected(chunk, o.Piece(chunk.index), start);
  }

  lemma PatchesUntouched(o: Origin, s: State, s': State)
    requires TableClean(o, s)
    requires forall i: nat :: Patch(o.id, i) in s'.files ==>
               Patch(o.id, i) in s.files && s'.files[Patch(o.id, i)] == s.files[Patch(o.id, i)]
    requires s' == s.(files := s'.files, stores := s'.stores)
    ensures TableClean(o, s')
  {
    hide TableClean;
    TableStaysClean(o, s, s');
  }

  lemma OpenStoreKeepsFaithful(o: Origin, s: State, h: nat, chunk: ChunkData)
    requires Faithful(o, s) && h !in s.stores && CrcsMatch(chunk)
    requires chunk.fileId == o.id ==> FromSplit(o, chunk)
    requires chunk.fileId == o.id ==> forall k :: k in s.stores ==> TemporaryOf(s.stores[k].chunk) != TemporaryOf(chunk)
    ensures Faithful(o, StoreOpened(s, h, chunk))
  {
    hide TableClean, StoresClean, LinksSound, CrcsMatch, FromSplit;
    var s' := StoreOpened(s, h, chunk);
    PatchesUntouched(o, s, s');
    OpenedStoreIsLinked(s, h, chunk);
    if chunk.fileId == o.id {
      CorrectPayload(o, chunk);
      TotalOfSplit(o, chunk);
    }
    OpenedStoreIsClean(o, s, h, chunk);
  }

  lemma OpenedStoreIsClean(o: Origin, s: State, h: nat, chunk: ChunkData)
    requires StoresClean(o, s.stores, s.files) && h !in s.stores
    requires chunk.fileId == o.id ==>
               && chunk.totalChunks == o.Total() && chunk.payload == o.Piece(chunk.index)
               && forall k :: k in s.stores ==> TemporaryOf(s.stores[k].chunk) != TemporaryOf(chunk)
    ensures StoresClean(o, StoreOpened(s, h, chunk).stores, StoreOpened(s, h, chunk).files)
  {}

  lemma TotalOfSplit(o: Origin, chunk: ChunkData)
    requires FromSplit(o, chunk)
    ensures chunk.totalChunks == o.Total()
  {
    hide Crc32.Crc, ErrorDetection.AgreeOutside;
  }

  lemma WriteStoreKeepsFaithful(o: Origin, s: State, h: nat, size: nat)
    requires Faithful(o, s) && h in s.stores && CanWrite(s.stores[h])
    ensures Faithful(o, StoreWritten(s, h, size))
  {
    hide TableClean, StoresClean, LinksSound, WriteTo;
    var s' := StoreWritten(s, h, size);
    WrittenStoreIsLinked(s, h, size);
    WritesNoCleanPatch(o, s, s', h);
    PatchesUntouched(o, s, s');
    WrittenStoreIsClean(o, s, h, size);
  }

  lemma WrittenStoreIsClean(o: Origin, s: State, h: nat, size: nat)
    requires StoresClean(o, s.stores, s.files) && LinksSound(s) && h in s.stores && CanWrite(s.stores[h])
    ensures StoresClean(o, StoreWritten(s, h, size).stores, StoreWritten(s, h, size).files)
  {
    hide Overwritten;
    var s', store := StoreWritten(s, h, size), s.stores[h];
    assert StoreLink(store);
    var payload, offset, end := store.chunk.payload, store.file.offset, s'.stores[h].file.offset;
    assert payload[..offset] + payload[offset..end] == payload[..end];
    WriteAtTheEnd(payload[..offset], payload[offset..end]);
  }

  /** A store of this file writes to its temporary file or nowhere; one of another file writes to
      files of that. */
  lemma WritesNoCleanPatch(o: Origin, s: State, s': State, h: nat)
    requires StoresClean(o, s.stores, s.files) && LinksSound(s) && h in s.stores
    requires exists bytes :: s'.files == WriteTo(s.files, s.stores[h].file, bytes)
    ensures forall i: nat :: Patch(o.id, i) in s'.files ==>
              Patch(o.id, i) in s.files && s'.files[Patch(o.id, i)] == s.files[Patch(o.id, i)]
  {
    hide Overwritten;
    assert StoreLink(s.stores[h]);
  }

  lemma StoreEnds(o: Origin, s: State, h: nat)
    requires Faithful(o, s) && h in s.stores
    ensures Faithful(o, s.(stores := s.stores - {h}))
  {
    hide TableClean, StoreClean;
    PatchesUntouched(o, s, s.(stores := s.stores - {h}));
  }

  lemma FailedStoreKeepsFaithful(o: Origin, s: State, h: nat)
    requires Faithful(o, s) && h in s.stores
    ensures Faithful(o, StoreFailed(s, h))
  {
    hide Faithful, Relinked;
    StoreEnds(o, s, h);
    RelinkedStaysFaithful(o, s.(stores := s.stores - {h}), s.files - {TemporaryOf(s.stores[h].chunk)});
  }

  lemma CloseStoreKeepsFaithful(o: Origin, s: State, h: nat, renameOk: bool)
    requires Faithful(o, s) && h in s.stores && !CanWrite(s.stores[h])
    ensures Faithful(o, StoreClosed(s, h, renameOk))
  {
    hide TableClean, LinksSound, Moved;
    var chunk := s.stores[h].chunk;
    var ended := s.(stores := s.stores - {h});
    StoreEnds(o, s, h);
    if renameOk && TemporaryOf(chunk) in s.files {
      if chunk.fileId == o.id {
        assert StoreClean(o, s.stores[h], s.files);
        assert chunk.payload[..|chunk.payload|] == chunk.payload;
      }
      MovedStaysFaithful(o, ended, TemporaryOf(chunk), PatchOf(chunk));
      var moved := Moved(ended, TemporaryOf(chunk), PatchOf(chunk));
      MovedKeeps(ended, TemporaryOf(chunk), PatchOf(chunk));
      NowWritten(o, moved, chunk);
    }
  }

  lemma NowWritten(o: Origin, s: State, chunk: ChunkData)
    requires Faithful(o, s)
    requires chunk.fileId == o.id ==> chunk.totalChunks == o.Total() && Clean(o, s.files, chunk.index)
    ensures Faithful(o, s.(written := s.written + multiset{chunk}))
  {
    hide StoresClean, StoreLink, JobLink, AllWellFormed, EntryClean, IssuedClean, JobsClean, AllOriginal, Clean;
  }

  lemma RegisterKeepsEntryClean(o: Origin, entry: Entry, files: Files, chunk: ChunkData, now: int, ttl: int)
    requires chunk.fileId == o.id && chunk.totalChunks == o.Total() && chunk.index < o.Total()
    requires Clean(o, files, chunk.index) && (entry == EmptyEntry() || EntryClean(o, entry, files))
    ensures EntryClean(o, Updated(entry, chunk, now, ttl), files)
  {
    hide Clean;
  }

  lemma CompleteEntryIsClean(o: Origin, entry: Entry, files: Files)
    requires WellFormed(o.id, entry) && EntryClean(o, entry, files) && RecordIfComplete(entry).Some?
    ensures RecordClean(o, entry.record, files)
  {
    hide Clean;
    CountingIsEnough(o.id, entry);
    forall i: nat | i < o.Total()
      ensures Clean(o, files, i)
    {
      assert i in UpTo(o.Total());
    }
  }

  lemma IssuedStayClean(o: Origin, issued: multiset<PayloadRecord>, record: PayloadRecord, files: Files)
    requires IssuedClean(o, issued, files) && (record.fileId == o.id ==> RecordClean(o, record, files))
    ensures IssuedClean(o, issued + multiset{record}, files)
  {
    hide RecordClean;
  }

  lemma WrittenStayClean(o: Origin, written: multiset<ChunkData>, chunk: ChunkData, files: Files)
    requires WrittenClean(o, written, files) && chunk in written
    ensures WrittenClean(o, written - multiset{chunk}, files)
    ensures chunk.fileId == o.id ==> chunk.totalChunks == o.Total() && Clean(o, files, chunk.index)
  {
    hide Clean;
  }

  lemma RegisterKeepsFaithful(o: Origin, s: State, chunk: ChunkData, now: int)
    requires Faithful(o, s) && chunk in s.written && chunk.index < chunk.totalChunks
    ensures Faithful(o, ChunkEntered(s, chunk, now))
  {
    hide WellFormed, Updated, Clean, EntryClean, RecordClean, RecordIfComplete, JobsClean, AllOriginal, IssuedClean,
         WrittenClean, StoresClean;
    RegisterKeepsWellFormed(s.payloads, chunk, now, s.defaultTtl);
    var entry := if chunk.fileId in s.payloads then s.payloads[chunk.fileId] else EmptyEntry();
    var entry' := Updated(entry, chunk, now, s.defaultTtl);
    assert Registered(s.payloads, chunk, now, s.defaultTtl) == s.payloads[chunk.fileId := entry'];
    UpdateKeepsWellFormed(entry, chunk, now, s.defaultTtl);
    UpdatedId(chunk.fileId, entry');
    WrittenStayClean(o, s.written, chunk, s.files);
    if chunk.fileId == o.id {
      RegisterKeepsEntryClean(o, entry, s.files, chunk, now, s.defaultTtl);
      if RecordIfComplete(entry').Some? {
        CompleteEntryIsClean(o, entry', s.files);
      }
    }
    if RecordIfComplete(entry').Some? {
      IssuedStayClean(o, s.issued, entry'.record, s.files);
    }
  }

  lemma UpdatedId(id: string, entry: Entry)
    requires WellFormed(id, entry)
    ensures entry.record.fileId == id
  {}

  lemma OpenKeepsFaithful(o: Origin, s: State, h: nat, record: PayloadRecord, openFails: bool, allocFails: bool)
    requires Faithful(o, s) && record in s.issued
    ensures Faithful(o, Opened(s, h, record, openFails, allocFails))
  {
    hide Faithful, RecordClean, Relinked;
    var part := Part(record.originalName);
    var taken := s.(issued := s.issued - multiset{record});
    IssuedTaken(o, s, record);
    RelinkedStaysFaithful(o, taken, s.files - {part});
    if |record.chunkFiles| == record.totalChunks && !openFails && !allocFails {
      var job := Job(record, Handle(Some(part), 0), 0, [], 0, true);
      var truncated := s.(files := s.files[part := []]);
      StoredFileChanges(o, s, truncated.files);
      IssuedTaken(o, truncated, record);
      JobStarts(o, taken.(files := truncated.files), h, job);
    }
  }

  lemma IssuedTaken(o: Origin, s: State, record: PayloadRecord)
    requires Faithful(o, s) && record in s.issued
    ensures Faithful(o, s.(issued := s.issued - multiset{record}))
    ensures record.fileId == o.id ==> RecordClean(o, record, s.files)
  {
    hide StoresClean, StoreLink, JobLink, AllWellFormed, EntryClean, WrittenClean, RecordClean, AllOriginal, JobsClean;
  }

  lemma StoredFileChanges(o: Origin, s: State, files: Files)
    requires Faithful(o, s)
    requires forall p: Path :: !p.Stored? ==> (p in files <==> p in s.files) && (p in files ==> files[p] == s.files[p])
    ensures Faithful(o, s.(files := files))
  {
    hide TableClean, StoreLink, JobLink;
    TableStaysClean(o, s, s.(files := files));
  }

  lemma JobStarts(o: Origin, s: State, h: nat, job: Job)
    requires Faithful(o, s) && JobLink(job)
    requires job.record.fileId == o.id ==> JobClean(o, job, s.files)
    ensures Faithful(o, s.(jobs := s.jobs[h := job]))
  {
    hide StoresClean, AllWellFormed, EntryClean, WrittenClean, IssuedClean, JobClean, AllOriginal, StoreLink, JobLink;
  }

  lemma PieceRead(o: Origin, record: PayloadRecord, files: Files, i: nat)
    requires record.fileId == o.id && RecordClean(o, record, files) && i < |record.chunkFiles|
    ensures Present(files, record.chunkFiles[i]) ==> Content(files, record.chunkFiles[i]) == o.Piece(i)
  {
    assert Clean(o, files, i);
  }

  /** Reading goes on with the next slot or leaves the input as it is, and writes at most to a stored file. */
  lemma OneChunkRead(zstd: Decoder, s: State, h: nat, unreadable: bool, unwritable: bool)
    requires h in s.jobs && CanRead(s.jobs[h]) && JobLink(s.jobs[h])
    ensures var s', job := ChunkRead(zstd, s, h, unreadable, unwritable), s.jobs[h];
            var slot := job.record.chunkFiles[job.next];
            && h in s'.jobs && s' == s.(files := s'.files, jobs := s.jobs[h := s'.jobs[h]])
            && (forall p: Path :: !p.Stored? ==>
                  (p in s'.files <==> p in s.files) && (p in s'.files ==> s'.files[p] == s.files[p]))
            && s'.jobs[h].record == job.record && JobLink(s'.jobs[h])
            && (|| (s'.jobs[h].next == job.next && s'.jobs[h].input == job.input)
                || (&& Present(s.files, slot) && s'.jobs[h].next == job.next + 1
                    && s'.jobs[h].input == job.input + Content(s.files, slot)))
  {
    hide Present, Content, Produced, Overwritten;
  }

  lemma ReadKeepsFaithful(zstd: Decoder, o: Origin, s: State, h: nat, unreadable: bool, unwritable: bool)
    requires Faithful(o, s) && h in s.jobs && CanRead(s.jobs[h])
    ensures Faithful(o, ChunkRead(zstd, s, h, unreadable, unwritable))
  {
    hide Faithful, RecordClean, Present, Content, ChunkRead;
    var s', job := ChunkRead(zstd, s, h, unreadable, unwritable), s.jobs[h];
    FaithfulJob(o, s, h);
    OneChunkRead(zstd, s, h, unreadable, unwritable);
    StoredFileChanges(o, s, s'.files);
    FaithfulJob(o, s.(files := s'.files), h);
    if job.record.fileId == o.id {
      PieceRead(o, job.record, s.files, job.next);
    }
    JobStarts(o, s.(files := s'.files), h, s'.jobs[h]);
  }

  lemma FaithfulJob(o: Origin, s: State, h: nat)
    requires Faithful(o, s) && h in s.jobs
    ensures JobLink(s.jobs[h]) && (s.jobs[h].record.fileId == o.id ==> JobClean(o, s.jobs[h], s.files))
  {
    hide StoresClean, AllWellFormed, EntryClean, WrittenClean, IssuedClean, JobClean, AllOriginal, StoreLink, JobLink;
  }

  lemma PublishKeepsFaithful(o: Origin, s: State, h: nat, syncFails: bool, renameFails: bool, leftover: set<Path>)
    requires Faithful(o, s) && h in s.jobs && JobSound(s.jobs[h]) && !CanRead(s.jobs[h])
    ensures Faithful(o, JobEnded(s, h, syncFails, renameFails, leftover))
  {
    hide Faithful, Relinked, Moved, RemoveDirectories, RecordClean, JobSound;
    var job := s.jobs[h];
    var part, final := Part(job.record.originalName), Final(job.record.originalName);
    var ended := s.(jobs := s.jobs - {h});
    FaithfulJob(o, s, h);
    JobStops(o, s, h);
    RelinkedStaysFaithful(o, ended, s.files - {part});
    if job.ok && part in s.files {
      MovedStaysFaithful(o, ended, part, final);
      var moved := Moved(ended, part, final);
      var files := RemoveDirectories(moved.files, {job.record.fileId}, leftover);
      DirectoriesShrink(moved.files, {job.record.fileId}, leftover);
      RelinkedStaysFaithful(o, moved, files);
      RelinkedKeeps(moved, files);
      MovedKeeps(ended, part, final);
      if job.record.fileId == o.id {
        AllRead(o, job, s.files);
      }
      NowPublished(o, Relinked(moved, files), job);
    }
  }

  lemma JobStops(o: Origin, s: State, h: nat)
    requires Faithful(o, s)
    ensures Faithful(o, s.(jobs := s.jobs - {h}))
  {
    hide StoresClean, AllWellFormed, EntryClean, WrittenClean, IssuedClean, JobClean, AllOriginal, StoreLink, JobLink;
  }

  lemma DirectoriesShrink(files: Files, ids: set<string>, left: set<Path>)
    ensures Shrinks(files, RemoveDirectories(files, ids, left))
  {}

  lemma AllRead(o: Origin, job: Job, files: Files)
    requires JobClean(o, job, files) && JobSound(job) && job.ok && !CanRead(job)
    ensures o.pieces != [] && job.input == o.Data()
  {}

  lemma NowPublished(o: Origin, s: State, job: Job)
    requires Faithful(o, s) && (job.record.fileId == o.id ==> o.pieces != [] && job.input == o.Data())
    ensures Faithful(o, s.(unmarked := s.unmarked + multiset{job.record.fileId},
                           published := s.published + [Publication(job.record, job.input)]))
  {
    hide StoresClean, AllWellFormed, EntryClean, WrittenClean, IssuedClean, JobsClean, StoreLink, JobLink;
  }

  lemma TableUpdated(o: Origin, s: State, payloads: Payloads)
    requires Faithful(o, s)
    requires forall id :: id in payloads ==>
               id in s.payloads && payloads[id].record == s.payloads[id].record
               && payloads[id].received == s.payloads[id].received
    ensures Faithful(o, s.(payloads := payloads))
  {
    hide StoresClean, AllWellFormed, WrittenClean, IssuedClean, JobsClean, AllOriginal, StoreLink, JobLink, Clean;
    TableKeepsSound(s, payloads);
  }

  lemma OtherFields(o: Origin, s: State, s': State)
    requires Faithful(o, s) && s' == s.(defaultTtl := s'.defaultTtl, unmarked := s'.unmarked)
    ensures Faithful(o, s')
  {
    hide StoresClean, AllWellFormed, WrittenClean, EntryClean, IssuedClean, JobsClean, AllOriginal, StoreLink, JobLink;
  }

  lemma OthersKeepFaithful(zstd: Decoder, o: Origin, s: State, step: Step)
    requires Faithful(o, s) && (step.Mark? || step.UpdateTtl? || step.Cleanup? || step.RemoveOld?)
    ensures Faithful(o, Apply(zstd, s, step))
  {
    hide Faithful, Relinked, RemoveDirectories, WithoutOld;
    match step
    case Mark(fileId) =>
      TableUpdated(o, s, s.payloads - {fileId});
      OtherFields(o, s.(payloads := s.payloads - {fileId}),
                  s.(payloads := s.payloads - {fileId}, unmarked := s.unmarked - multiset{fileId}));
    case UpdateTtl(ttl) =>
      TableUpdated(o, s, WithTtl(s.payloads, ttl));
      OtherFields(o, s.(payloads := WithTtl(s.payloads, ttl)),
                  s.(payloads := WithTtl(s.payloads, ttl), defaultTtl := ttl));
    case Cleanup(now, left) =>
      TableUpdated(o, s, WithoutExpired(s.payloads, now));
      DirectoriesShrink(s.files, ExpiredIds(s.payloads, now), left);
      RelinkedStaysFaithful(o, s.(payloads := WithoutExpired(s.payloads, now)),
                            RemoveDirectories(s.files, ExpiredIds(s.payloads, now), left));
    case RemoveOld(aged) =>
      OldShrinks(s.files, aged);
      RelinkedStaysFaithful(o, s, WithoutOld(s.files, aged));
  }

  lemma OldShrinks(files: Files, aged: set<string>)
    ensures Shrinks(files, WithoutOld(files, aged))
  {}

  lemma StepKeepsFaithful(zstd: Decoder, o: Origin, s: State, step: Step)
    requires Faithful(o, s) && Sound(s) && Delivers(o, step) && StoresApart(o.id, s, step)
    ensures Faithful(o, Apply(zstd, s, step))
  {
    hide Faithful, FromSplit, Opened, ChunkRead, JobEnded, ChunkEntered, StoreOpened, StoreWritten, StoreClosed,
         StoreFailed, Relinked, CrcsMatch, CanRead, CanWrite, JobSound, WithTtl, WithoutExpired;
    match step
    case OpenStore(h, chunk, _, _) =>
      if h !in s.stores && CrcsMatch(chunk) {
        OpenStoreKeepsFaithful(o, s, h, chunk);
      }
    case WriteStore(h, size, _) =>
      if h in s.stores && CanWrite(s.stores[h]) {
        WriteStoreKeepsFaithful(o, s, h, size);
        FailedStoreKeepsFaithful(o, s, h);
      }
    case CloseStore(h, _, renameOk) =>
      if h in s.stores && !CanWrite(s.stores[h]) {
        CloseStoreKeepsFaithful(o, s, h, renameOk);
        FailedStoreKeepsFaithful(o, s, h);
      }
    case Register(chunk, now) =>
      if chunk in s.written && chunk.index < chunk.totalChunks {
        RegisterKeepsFaithful(o, s, chunk, now);
      }
    case Open(h, record, openFails, allocFails) =>
      if record in s.issued {
        OpenKeepsFaithful(o, s, h, record, openFails, allocFails);
      }
    case ReadChunk(h, unreadable, unwritable) =>
      if h in s.jobs && CanRead(s.jobs[h]) {
        ReadKeepsFaithful(zstd, o, s, h, unreadable, unwritable);
      }
    case Publish(h, syncFails, renameFails, leftover) =>
      if h in s.jobs && !CanRead(s.jobs[h]) {
        assert JobSound(s.jobs[h]);
        PublishKeepsFaithful(o, s, h, syncFails, renameFails, leftover);
      }
    case _ => OthersKeepFaithful(zstd, o, s, step);
  }

  lemma {:induction false} RunKeepsFaithful(zstd: Decoder, o: Origin, files: Files, defaultTtl: int, steps: seq<Step>)
    requires forall step :: step in steps ==> Delivers(o, step)
    requires OneStoreAtATime(o.id, zstd, Initial(files, defaultTtl), steps)
    ensures Faithful(o, Run(zstd, Initial(files, defaultTtl), steps))
    decreases |steps|
  {
    hide Delivers, StoresApart, Faithful, Apply, Sound;
    if steps == [] {
      InitialIsFaithful(o, files, defaultTtl);
    } else {
      var init, last := steps[..|steps| - 1], steps[|steps| - 1];
      var s := Run(zstd, Initial(files, defaultTtl), init);
      forall k | 0 <= k < |init|
        ensures StoresApart(o.id, Run(zstd, Initial(files, defaultTtl), init[..k]), init[k])
      {
        assert init[..k] == steps[..k];
      }
      RunKeepsFaithful(zstd, o, files, defaultTtl, init);
      NothingIncompleteIsPublished(zstd, files, defaultTtl, init);
      assert last in steps && StoresApart(o.id, s, last);
      StepKeepsFaithful(zstd, o, s, last);
    }
  }

  lemma InitialIsFaithful(o: Origin, files: Files, defaultTtl: int)
    ensures Faithful(o, Initial(files, defaultTtl))
  {}

  /** The pieces a file is split into. */
  function SplitOf(id: string, data: seq<bv8>, payloadSize: nat): Origin
    requires 0 < payloadSize
  {
    Origin(id, seq(Chunker.Total(|data|, payloadSize), i requires 0 <= i => Chunker.Piece(data, payloadSize, i)))
  }

  lemma {:induction false} SplitJoins(id: string, data: seq<bv8>, payloadSize: nat, n: nat)
    requires 0 < payloadSize && n <= Chunker.Total(|data|, payloadSize)
    ensures SplitOf(id, data, payloadSize).Joined(n) == Chunker.Joined(data, payloadSize, n)
  {
    hide Chunker.Total, Chunker.Piece;
    if n == 0 {
    } else {
      SplitJoins(id, data, payloadSize, n - 1);
    }
  }

  lemma SplitIsWhole(id: string, data: seq<bv8>, payloadSize: nat)
    requires |data| < Chunker.SIZE_LIMIT && 0 < payloadSize < Chunker.SIZE_LIMIT
    requires SplitOf(id, data, payloadSize).pieces != []
    ensures SplitOf(id, data, payloadSize).Data() == data
  {
    hide Chunker.Total, Chunker.Piece, Chunker.Joined;
    SplitJoins(id, data, payloadSize, Chunker.Total(|data|, payloadSize));
    Chunker.SplitIsComplete(data, payloadSize);
    if |data| + payloadSize - 1 >= Chunker.SIZE_LIMIT {
      Chunker.WrappedTotalIsZero(|data|, payloadSize);
    }
  }

  lemma SplitId(id: string, data: seq<bv8>, payloadSize: nat)
    requires 0 < payloadSize
    ensures SplitOf(id, data, payloadSize).id == id
  {}

  // ----- From the chunks a client splits a file into -----

  /** A chunk as the server receives it carries one the client made: its number, the number of
      chunks, and the CRC of its payload; the payload may have been damaged on the way. */
  ghost predicate Carries(id: string, chunk: ChunkData, sent: Chunker.FileChunk) {
    && chunk.fileId == id && chunk.index == sent.index && chunk.totalChunks == sent.totalChunks
    && chunk.payloadCrc == Crc32.Crc(sent.payload)
    && exists start :: ErrorDetection.AgreeOutside(chunk.payload, sent.payload, start, 32)
  }

  lemma CarriedIsFromSplit(
      id: string, file: Chunker.CompressedFile, payloadSize: nat, chunks: seq<Chunker.FileChunk>, k: nat,
      chunk: ChunkData)
    requires payloadSize > 0 && Chunker.IsSplit(file, payloadSize, chunks) && k < |chunks|
    requires Carries(id, chunk, chunks[k])
    ensures FromSplit(SplitOf(id, file.data, payloadSize), chunk)
  {
    hide Crc32.Crc, ErrorDetection.AgreeOutside, Chunker.Piece, Chunker.Total;
    Chunker.NothingToSplitIsNoChunk(file, payloadSize, chunks);
  }

  /** End to end.  When every chunk that arrives under a file id comes from one split of some data,
      intact or damaged in a burst, and no two handlers store the same chunk of it at once, then
      whatever the order, the duplicates, the losses, the failures, the expiries and the other files,
      and whatever was on the disk: every publication of that id was fed exactly that data. */
  lemma PublishedIsTheOriginal(
      zstd: Decoder, id: string, data: seq<bv8>, payloadSize: nat, files: Files, defaultTtl: int, steps: seq<Step>)
    requires |data| < Chunker.SIZE_LIMIT && 0 < payloadSize < Chunker.SIZE_LIMIT
    requires forall step :: step in steps ==> Delivers(SplitOf(id, data, payloadSize), step)
    requires OneStoreAtATime(id, zstd, Initial(files, defaultTtl), steps)
    ensures forall p :: p in Run(zstd, Initial(files, defaultTtl), steps).published && p.record.fileId == id ==>
              p.fed == data
  {
    hide SplitOf, Delivers, Run, StoresApart;
    var o := SplitOf(id, data, payloadSize);
    SplitId(id, data, payloadSize);
    RunKeepsFaithful(zstd, o, files, defaultTtl, steps);
    WhatIsPublished(o, Run(zstd, Initial(files, defaultTtl), steps));
    if o.pieces != [] {
      SplitIsWhole(id, data, payloadSize);
    }
  }

  lemma WhatIsPublished(o: Origin, s: State)
    requires Faithful(o, s)
    ensures AllOriginal(o, s.published)
  {}
}
