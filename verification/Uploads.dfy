/** What the table of files under way says about the chunks entered, and what a whole upload does. */
module Uploads {
  import opened Disk
  import opened Storage
  import opened Assembler
  import opened Relay
  import opened Server
  import opened EndToEnd
  import Crc32
  import ErrorDetection

  // ----- The chunks behind an entry -----

  predicate Enters(s: State, step: Step, id: string) {
    step.Register? && step.chunk.fileId == id && step.chunk in s.written && step.chunk.index < step.chunk.totalChunks
  }

  /** The chunks entered for a file since its entry was made; nothing when it has none. */
  function Entered(zstd: Decoder, s: State, steps: seq<Step>, id: string): seq<ChunkData>
    decreases |steps|
  {
    if steps == [] then []
    else
      var init, last := steps[..|steps| - 1], steps[|steps| - 1];
      var log := Entered(zstd, s, init, id);
      if Enters(Run(zstd, s, init), last, id) then log + [last.chunk]
      else if id in Run(zstd, s, steps).payloads then log
      else []
  }

  function MaxTotal(log: seq<ChunkData>): nat
    decreases |log|
  {
    if log == [] then 0
    else
      var before, total := MaxTotal(log[..|log| - 1]), log[|log| - 1].totalChunks;
      if total > before then total else before
  }

  function Indices(log: seq<ChunkData>): set<nat>
    decreases |log|
  {
    if log == [] then {} else Indices(log[..|log| - 1]) + {log[|log| - 1].index}
  }

  /** The first chunk fixes the name and the total, the longest announcement the length of the list;
      an entry is complete when it has received as many indices as the first chunk announced. */
  predicate EntryOf(entry: Entry, log: seq<ChunkData>) {
    && log != [] && entry.record.totalChunks == log[0].totalChunks && entry.record.chunkFiles != []
    && entry.record.fileId == log[0].fileId && entry.record.originalName == log[0].originalName
    && |entry.record.chunkFiles| == MaxTotal(log) && entry.received == Indices(log)
    && entry.complete == (|Indices(log)| == log[0].totalChunks)
  }

  predicate Follows(payloads: Payloads, id: string, log: seq<ChunkData>) {
    if id in payloads then EntryOf(payloads[id], log) else log == []
  }

  lemma EnteredFollows(payloads: Payloads, id: string, log: seq<ChunkData>, chunk: ChunkData, now: int, ttl: int)
    requires Follows(payloads, id, log) && chunk.fileId == id && chunk.index < chunk.totalChunks
    ensures Follows(Registered(payloads, chunk, now, ttl), id, log + [chunk])
  {
    assert (log + [chunk])[..|log|] == log;
    var entry := if id in payloads then payloads[id] else EmptyEntry();
    assert MaxTotal([]) == 0 && Indices([]) == {};
    assert |Updated(entry, chunk, now, ttl).record.chunkFiles| == MaxTotal(log + [chunk]);
  }

  /** Other steps change at most the time to live of an entry, or remove it. */
  lemma EntryAfterOthers(zstd: Decoder, s: State, step: Step, id: string)
    requires !Enters(s, step, id)
    ensures var s' := Apply(zstd, s, step);
            && (id in s'.payloads ==>
                  && id in s.payloads
                  && s'.payloads[id] == if step.UpdateTtl? then s.payloads[id].(ttl := step.ttl) else s.payloads[id])
            && (id !in s'.payloads && id in s.payloads ==> step.Mark? || step.Cleanup?)
            && s'.defaultTtl == if step.UpdateTtl? then step.ttl else s.defaultTtl
  {
    hide Relinked, RemoveDirectories, WithoutOld, Registered, StoreOpened, StoreWritten, StoreFailed,
         StoreClosed, Opened, ChunkRead, JobEnded, CrcsMatch, IndexInRange, CanRead, CanWrite, Issues;
    match step
    case Register(chunk, now) =>
      if chunk in s.written && chunk.index < chunk.totalChunks {
        OtherId(s.payloads, chunk, now, s.defaultTtl, id);
      }
    case Cleanup(now, left) =>
      RelinkedKeeps(s.(payloads := WithoutExpired(s.payloads, now)),
                    RemoveDirectories(s.files, ExpiredIds(s.payloads, now), left));
    case RemoveOld(aged) => RelinkedKeeps(s, WithoutOld(s.files, aged));
    case Mark(_) => {}
    case UpdateTtl(_) => {}
    case Open(_, _, _, _) => JobsFrame(zstd, s, step);
    case ReadChunk(_, _, _) => JobsFrame(zstd, s, step);
    case Publish(_, _, _, _) => JobsFrame(zstd, s, step);
    case _ => StoresFrame(zstd, s, step);
  }

  lemma OtherId(payloads: Payloads, chunk: ChunkData, now: int, ttl: int, id: string)
    requires chunk.index < chunk.totalChunks && chunk.fileId != id
    ensures var payloads' := Registered(payloads, chunk, now, ttl);
            (id in payloads' <==> id in payloads) && (id in payloads ==> payloads'[id] == payloads[id])
  {}

  lemma {:induction false} TableFollowsTheChunks(
      zstd: Decoder, files: Files, defaultTtl: int, steps: seq<Step>, id: string)
    ensures var s := Initial(files, defaultTtl);
            Follows(Run(zstd, s, steps).payloads, id, Entered(zstd, s, steps, id))
    decreases |steps|
  {
    hide Apply, Registered, MaxTotal, Indices;
    if steps == [] {
    } else {
      var init, last := steps[..|steps| - 1], steps[|steps| - 1];
      var s := Run(zstd, Initial(files, defaultTtl), init);
      var log := Entered(zstd, Initial(files, defaultTtl), init, id);
      TableFollowsTheChunks(zstd, files, defaultTtl, init, id);
      if Enters(s, last, id) {
        EnteredFollows(s.payloads, id, log, last.chunk, last.now, s.defaultTtl);
        AfterEntering(zstd, s, last.chunk, last.now);
      } else {
        EntryAfterOthers(zstd, s, last, id);
      }
    }
  }

  lemma AfterEntering(zstd: Decoder, s: State, chunk: ChunkData, now: int)
    requires chunk in s.written && chunk.index < chunk.totalChunks
    ensures Apply(zstd, s, Register(chunk, now)).payloads == Registered(s.payloads, chunk, now, s.defaultTtl)
  {
    hide Registered;
  }

  // ----- When counting is enough -----

  /** No chunk of the upload announces more chunks than its first one did. */
  predicate NoneAnnouncesMore(log: seq<ChunkData>) {
    forall k :: 0 <= k < |log| ==> log[k].totalChunks <= log[0].totalChunks
  }

  lemma {:induction false} MaxTotalIsTheFirst(log: seq<ChunkData>)
    requires log != []
    ensures MaxTotal(log) == log[0].totalChunks <==> NoneAnnouncesMore(log)
    ensures MaxTotal(log) >= log[0].totalChunks
    decreases |log|
  {
    var init := log[..|log| - 1];
    if init == [] {
    } else {
      MaxTotalIsTheFirst(init);
      assert forall k :: 0 <= k < |init| ==> init[k] == log[k];
    }
  }

  /** In every run: of the records the storage calls complete, those without an empty slot are exactly
      those of uploads in which no chunk announced more chunks than the first. */
  lemma CompleteWithoutHoles(zstd: Decoder, files: Files, defaultTtl: int, steps: seq<Step>, id: string)
    ensures var s := Run(zstd, Initial(files, defaultTtl), steps);
            id in s.payloads && RecordIfComplete(s.payloads[id]).Some? ==>
              (NoEmptySlot(s.payloads[id].record) <==>
               NoneAnnouncesMore(Entered(zstd, Initial(files, defaultTtl), steps, id)))
  {
    hide Run, Entered, MaxTotal, NoEmptySlot, NoneAnnouncesMore, WellFormed, RecordIfComplete;
    var s := Run(zstd, Initial(files, defaultTtl), steps);
    TableFollowsTheChunks(zstd, files, defaultTtl, steps, id);
    NothingIncompleteIsPublished(zstd, files, defaultTtl, steps);
    if id in s.payloads && RecordIfComplete(s.payloads[id]).Some? {
      assert WellFormed(id, s.payloads[id]);
      HandedOutWithoutHoles(id, s.payloads[id]);
      MaxTotalIsTheFirst(Entered(zstd, Initial(files, defaultTtl), steps, id));
    }
  }

  /** A disk that does what it is asked to. */
  function Obliging(chunk: ChunkData): Conditions { Conditions(true, true, |chunk.payload|, true, true) }

  /** A chunk as a handler accepts it. */
  function Accepted(id: string, name: string, index: nat, total: nat, header: seq<bv8>, payload: seq<bv8>): ChunkData {
    ChunkData(id, name, index, total, 0, header, payload, Crc32.Crc(header), Crc32.Crc(payload))
  }

  function UploadOne(zstd: Decoder, s: State, h: nat, chunk: ChunkData, now: int): State {
    Apply(zstd, StoreRun(zstd, s, h, chunk, Obliging(chunk)), Register(chunk, now))
  }

  lemma UploadedAtOnce(zstd: Decoder, s: State, h: nat, chunk: ChunkData, now: int)
    requires Alone(s) && chunk !in s.written && IndexInRange(chunk) && CrcsMatch(chunk)
    ensures var payloads := Registered(s.payloads, chunk, now, s.defaultTtl);
            var entry := payloads[chunk.fileId];
            UploadOne(zstd, s, h, chunk, now)
            == s.(files := (s.files - {TemporaryOf(chunk)})[PatchOf(chunk) := chunk.payload], payloads := payloads,
                  issued := if RecordIfComplete(entry).Some? then s.issued + multiset{entry.record} else s.issued)
  {
    hide CrcsMatch, Registered, RecordIfComplete, StoreRun;
    UndisturbedStore(zstd, s, h, chunk, Obliging(chunk));
    var s1 := StoreRun(zstd, s, h, chunk, Obliging(chunk));
    assert s1.written == s.written + multiset{chunk};
    assert s1.written - multiset{chunk} == s.written;
  }

  /** The count can be fooled by chunks every handler accepts: announced first as two, then as three
      chunks long, an upload of two chunks is called complete with an empty slot between them. */
  lemma CountingCanBeFooled(
      zstd: Decoder, id: string, name: string, header: seq<bv8>, payload: seq<bv8>,
      header': seq<bv8>, payload': seq<bv8>, files: Files, ttl: int, now: int)
    ensures var first, second := Accepted(id, name, 0, 2, header, payload), Accepted(id, name, 2, 3, header', payload');
            var s1 := UploadOne(zstd, Initial(files, ttl), 1, first, now);
            var s2 := UploadOne(zstd, s1, 1, second, now);
            && IndexInRange(first) && CrcsMatch(first) && IndexInRange(second) && CrcsMatch(second)
            && s1.issued == multiset{}
            && s2.issued == multiset{PayloadRecord(id, name, 2, [Some(Patch(id, 0)), None, Some(Patch(id, 2))])}
  {
    hide Crc32.Crc, UploadOne;
    var first, second := Accepted(id, name, 0, 2, header, payload), Accepted(id, name, 2, 3, header', payload');
    var s := Initial(files, ttl);
    UploadedAtOnce(zstd, s, 1, first, now);
    var s1 := UploadOne(zstd, s, 1, first, now);
    UploadedAtOnce(zstd, s1, 1, second, now);
    TwoOfThree(id, name, first, second, now, ttl);
  }

  lemma TwoOfThree(id: string, name: string, first: ChunkData, second: ChunkData, now: int, ttl: int)
    requires first.fileId == id && first.originalName == name && first.index == 0 && first.totalChunks == 2
    requires second.fileId == id && second.index == 2 && second.totalChunks == 3
    ensures var payloads := Registered(map[], first, now, ttl);
            var payloads' := Registered(payloads, second, now, ttl);
            var record := PayloadRecord(id, name, 2, [Some(Patch(id, 0)), None, Some(Patch(id, 2))]);
            && RecordIfComplete(payloads[id]) == None
            && RecordIfComplete(payloads'[id]) == Some(record) && payloads'[id].record == record
  {
    var e1 := Updated(EmptyEntry(), first, now, ttl);
    assert e1.record.chunkFiles == [Some(Patch(id, 0)), None] && e1.received == {0};
    var e2 := Updated(e1, second, now, ttl);
    assert e2.record.chunkFiles == [Some(Patch(id, 0)), None, Some(Patch(id, 2))] && e2.received == {0, 2};
  }

  function OnlyRecord(id: string, name: string): PayloadRecord {
    PayloadRecord(id, name, 1, [Some(Patch(id, 0))])
  }

  /** The only chunk of a file completes it. */
  lemma FirstOfOne(payloads: Payloads, chunk: ChunkData, now: int, ttl: int)
    requires chunk.index == 0 && chunk.totalChunks == 1 && chunk.fileId !in payloads
    ensures var payloads' := Registered(payloads, chunk, now, ttl);
            chunk.fileId in payloads'
            && RecordIfComplete(payloads'[chunk.fileId]) == Some(OnlyRecord(chunk.fileId, chunk.originalName))
            && payloads'[chunk.fileId].record == OnlyRecord(chunk.fileId, chunk.originalName)
  {
    var entry := Updated(EmptyEntry(), chunk, now, ttl);
    assert entry.record.chunkFiles == [Some(Patch(chunk.fileId, 0))];
    assert entry.received == {0};
  }

  // ----- A constant total -----

  /** Every chunk of the file that a handler holds announces this total. */
  predicate AllAnnounce(s: State, id: string, total: nat) {
    && (forall h :: h in s.stores && s.stores[h].chunk.fileId == id ==> s.stores[h].chunk.totalChunks == total)
    && (forall c :: c in s.written && c.fileId == id ==> c.totalChunks == total)
  }

  predicate Announces(step: Step, id: string, total: nat) {
    step.OpenStore? && step.chunk.fileId == id ==> step.chunk.totalChunks == total
  }

  lemma StepAnnounces(zstd: Decoder, s: State, step: Step, id: string, total: nat)
    requires AllAnnounce(s, id, total) && Announces(step, id, total)
    ensures AllAnnounce(Apply(zstd, s, step), id, total)
  {
    hide Apply;
    StoresAfter(zstd, s, step);
    WrittenAfter(zstd, s, step);
  }

  /** What is written after a step was written or being stored before it. */
  lemma WrittenAfter(zstd: Decoder, s: State, step: Step)
    ensures forall c :: c in Apply(zstd, s, step).written ==>
              c in s.written || exists h :: h in s.stores && s.stores[h].chunk == c
  {
    hide Relinked, RemoveDirectories, WithoutOld, Registered, StoreOpened, StoreWritten, StoreFailed, StoreClosed,
         Opened, ChunkRead, JobEnded, CrcsMatch, IndexInRange, CanRead, CanWrite, Issues, WithTtl, WithoutExpired,
         ExpiredIds;
    match step
    case Register(_, _) => {}
    case Cleanup(now, left) =>
      RelinkedKeeps(s.(payloads := WithoutExpired(s.payloads, now)),
                    RemoveDirectories(s.files, ExpiredIds(s.payloads, now), left));
    case RemoveOld(aged) => RelinkedKeeps(s, WithoutOld(s.files, aged));
    case Mark(_) => {}
    case UpdateTtl(_) => {}
    case Open(_, _, _, _) => JobsFrame(zstd, s, step);
    case ReadChunk(_, _, _) => JobsFrame(zstd, s, step);
    case Publish(_, _, _, _) => JobsFrame(zstd, s, step);
    case _ => StoresFrame(zstd, s, step);
  }

  lemma {:induction false} EnteredAnnounce(
      zstd: Decoder, s0: State, steps: seq<Step>, id: string, total: nat)
    requires forall step :: step in steps ==> Announces(step, id, total)
    requires AllAnnounce(s0, id, total)
    ensures AllAnnounce(Run(zstd, s0, steps), id, total)
    ensures forall k :: 0 <= k < |Entered(zstd, s0, steps, id)| ==> Entered(zstd, s0, steps, id)[k].totalChunks == total
    decreases |steps|
  {
    hide Apply, Announces;
    if steps == [] {
    } else {
      var init, last := steps[..|steps| - 1], steps[|steps| - 1];
      EnteredAnnounce(zstd, s0, init, id, total);
      assert last in steps;
      StepAnnounces(zstd, Run(zstd, s0, init), last, id, total);
    }
  }

  /** When all chunks of a file announce the same total, in every run and whatever they contain: the
      next chunk yields a record exactly when with it no index is missing any more. */
  lemma IssuedWhenNothingIsMissing(
      zstd: Decoder, files: Files, defaultTtl: int, steps: seq<Step>, chunk: ChunkData, now: int)
    requires forall step :: step in steps ==> Announces(step, chunk.fileId, chunk.totalChunks)
    requires chunk in Run(zstd, Initial(files, defaultTtl), steps).written && chunk.index < chunk.totalChunks
    ensures var s := Run(zstd, Initial(files, defaultTtl), steps);
            var log := Entered(zstd, Initial(files, defaultTtl), steps, chunk.fileId);
            Issues(s, chunk, now) <==> Indices(log) + {chunk.index} == UpTo(chunk.totalChunks)
  {
    hide Run, Entered, Announces, MaxTotal, Indices, WellFormed, Updated;
    var s0, id, total := Initial(files, defaultTtl), chunk.fileId, chunk.totalChunks;
    var s, log := Run(zstd, s0, steps), Entered(zstd, s0, steps, id);
    EnteredAnnounce(zstd, s0, steps, id, total);
    TableFollowsTheChunks(zstd, files, defaultTtl, steps, id);
    NothingIncompleteIsPublished(zstd, files, defaultTtl, steps);
    RegisterKeepsWellFormed(s.payloads, chunk, now, s.defaultTtl);
    EnteredFollows(s.payloads, id, log, chunk, now, s.defaultTtl);
    var payloads, log' := Registered(s.payloads, chunk, now, s.defaultTtl), log + [chunk];
    assert WellFormed(id, payloads[id]);
    assert forall k :: 0 <= k < |log'| ==> log'[k].totalChunks == total;
    OneMoreIndex(log, chunk);
    MaxTotalIsTheFirst(log');
    CountingIsEnough(id, payloads[id]);
  }

  lemma OneMoreIndex(log: seq<ChunkData>, chunk: ChunkData)
    ensures Indices(log + [chunk]) == Indices(log) + {chunk.index}
  {
    assert (log + [chunk])[..|log|] == log;
  }

  // ----- Uploads in any order succeed -----

  /** An intact chunk of the split. */
  predicate Intact(o: Origin, chunk: ChunkData) {
    && chunk.fileId == o.id && chunk.totalChunks == o.Total() && chunk.index < o.Total()
    && chunk.payload == o.Piece(chunk.index) && CrcsMatch(chunk)
  }

  /** The chunks are stored and entered one after another. */
  function Upload(zstd: Decoder, s: State, h: nat, chunks: seq<ChunkData>, now: int): State
    decreases |chunks|
  {
    if chunks == [] then s
    else UploadOne(zstd, Upload(zstd, s, h, chunks[..|chunks| - 1], now), h, chunks[|chunks| - 1], now)
  }

  /** The decoder takes the data, split at these places, without complaint. */
  predicate Decodable(zstd: Decoder, o: Origin)
  {
    && (forall n :: 0 < n <= o.Total() ==> !zstd(o.Joined(n)).error)
    && zstd(o.Data()).pending == 0
  }

  predicate NoFaults(faults: Faults) {
    && !faults.open && !faults.alloc && !faults.sync && !faults.rename
    && faults.unreadable == {} && faults.unwritable == {}
  }

  /** What the uploads so far have left: the table of this file, and its patches. */
  ghost predicate Uploaded(o: Origin, s: State, s': State, indices: set<nat>) {
    && Alone(s') && s'.written == s.written && s'.unmarked == s.unmarked && s'.published == s.published
    && AllWellFormed(s'.payloads)
    && (o.id in s'.payloads <==> indices != {})
    && (o.id in s'.payloads ==>
          var entry := s'.payloads[o.id];
          && entry.received == indices && |entry.record.chunkFiles| == entry.record.totalChunks == o.Total()
          && (RecordIfComplete(entry).Some? ==> entry.record in s'.issued))
    && (forall i :: i in indices ==> Patch(o.id, i) in s'.files && s'.files[Patch(o.id, i)] == o.Piece(i))
  }

  lemma UploadStep(zstd: Decoder, o: Origin, s: State, s': State, indices: set<nat>, h: nat, chunk: ChunkData, now: int)
    requires Uploaded(o, s, s', indices) && Intact(o, chunk) && s.written == multiset{}
    ensures Uploaded(o, s, UploadOne(zstd, s', h, chunk, now), indices + {chunk.index})
  {
    hide CrcsMatch, UploadOne, WellFormed, RecordIfComplete, Updated;
    UploadedAtOnce(zstd, s', h, chunk, now);
    RegisterKeepsWellFormed(s'.payloads, chunk, now, s'.defaultTtl);
    var entry := if o.id in s'.payloads then s'.payloads[o.id] else EmptyEntry();
    UpdatedSize(entry, chunk, now, s'.defaultTtl);
  }

  lemma UpdatedSize(entry: Entry, chunk: ChunkData, now: int, ttl: int)
    requires chunk.index < chunk.totalChunks
    requires entry == EmptyEntry() || |entry.record.chunkFiles| == entry.record.totalChunks == chunk.totalChunks
    ensures var entry' := Updated(entry, chunk, now, ttl);
            && |entry'.record.chunkFiles| == entry'.record.totalChunks == chunk.totalChunks
            && entry'.received == entry.received + {chunk.index}
  {}

  lemma {:induction false} UploadedSoFar(zstd: Decoder, o: Origin, s: State, h: nat, chunks: seq<ChunkData>, now: int)
    requires Uploaded(o, s, s, {}) && s.written == multiset{}
    requires forall k :: 0 <= k < |chunks| ==> Intact(o, chunks[k])
    ensures Uploaded(o, s, Upload(zstd, s, h, chunks, now), Indices(chunks))
    decreases |chunks|
  {
    hide Uploaded, Intact, UploadOne;
    if chunks == [] {
    } else {
      var init, last := chunks[..|chunks| - 1], chunks[|chunks| - 1];
      UploadedSoFar(zstd, o, s, h, init, now);
      UploadStep(zstd, o, s, Upload(zstd, s, h, init, now), Indices(init), h, last, now);
    }
  }

  /** Reading clean patches in order gives back the pieces, joined. */
  lemma {:induction false} FedIsJoined(o: Origin, files: Files, slots: seq<Option<Path>>, n: nat)
    requires n <= |slots|
    requires forall i :: 0 <= i < n ==>
               slots[i] == Some(Patch(o.id, i)) && Patch(o.id, i) in files && Clean(o, files, i)
    ensures Fed(files, slots, n) == o.Joined(n)
  {
    if n == 0 {
    } else {
      FedIsJoined(o, files, slots, n - 1);
      assert Content(files, slots[n - 1]) == o.Piece(n - 1);
    }
  }

  /** A record whose patches are all there and clean goes through a willing decoder. */
  lemma CleanRecordAssembles(zstd: Decoder, o: Origin, files: Files, record: PayloadRecord, faults: Faults)
    requires |record.chunkFiles| == record.totalChunks == o.Total()
    requires forall i :: 0 <= i < o.Total() ==>
               record.chunkFiles[i] == Some(Patch(o.id, i)) && Patch(o.id, i) in files && Clean(o, files, i)
    requires NoFaults(faults) && Decodable(zstd, o) && o.Data() != []
    ensures Assembles(files, record, faults, zstd)
    ensures Fed(files, record.chunkFiles, record.totalChunks) == o.Data()
  {
    forall n: nat | n <= o.Total()
      ensures Fed(files, record.chunkFiles, n) == o.Joined(n)
    {
      FedIsJoined(o, files, record.chunkFiles, n);
    }
    forall i | 0 <= i < o.Total()
      ensures Passes(files, record.chunkFiles, faults, zstd, i)
    {
      assert Fed(files, record.chunkFiles, i + 1) == o.Joined(i + 1);
    }
  }

  lemma FinalFileWritten(zstd: Decoder, files: Files, record: PayloadRecord, faults: Faults)
    requires Assembles(files, record, faults, zstd)
    ensures var final := Final(record.originalName);
            final in Assembled(files, record, faults, zstd)
            && Assembled(files, record, faults, zstd)[final]
               == Output(zstd, Fed(files, record.chunkFiles, record.totalChunks))
    ensures forall i :: Patch(record.fileId, i) in Assembled(files, record, faults, zstd) ==>
              Patch(record.fileId, i) in faults.left
  {
    hide Output, Fed;
  }

  /** The record of a complete upload. */
  lemma UploadedRecord(o: Origin, s: State, s': State)
    requires Uploaded(o, s, s', UpTo(o.Total())) && o.Total() > 0
    ensures o.id in s'.payloads
    ensures var record := s'.payloads[o.id].record;
            && record in s'.issued && record.fileId == o.id && |record.chunkFiles| == record.totalChunks == o.Total()
            && ListsPatches(record.chunkFiles)
            && forall i :: 0 <= i < o.Total() ==>
                 record.chunkFiles[i] == Some(Patch(o.id, i)) && Patch(o.id, i) in s'.files && Clean(o, s'.files, i)
  {
    assert 0 in UpTo(o.Total());
    assert WellFormed(o.id, s'.payloads[o.id]);
    CountingIsEnough(o.id, s'.payloads[o.id]);
    forall i | 0 <= i < o.Total()
      ensures i in UpTo(o.Total())
    {}
  }

  /** When every index is uploaded, in any order and with any repetitions, the last chunk issues a
      record, and assembling it without faults publishes the decompressed original; nothing else being
      under way. */
  lemma AnyOrderUploads(
      zstd: Decoder, o: Origin, s: State, h: nat, chunks: seq<ChunkData>, now: int, faults: Faults)
    requires Alone(s) && s.written == multiset{} && AllWellFormed(s.payloads)
    requires o.id !in s.payloads && o.id !in s.unmarked && Decodable(zstd, o) && o.Data() != []
    requires forall k :: 0 <= k < |chunks| ==> Intact(o, chunks[k])
    requires Indices(chunks) == UpTo(o.Total()) && NoFaults(faults)
    ensures var s1 := Upload(zstd, s, h, chunks, now);
            o.id in s1.payloads && s1.payloads[o.id].record in s1.issued &&
            var record := s1.payloads[o.id].record;
            var s2 := AssemblyRun(zstd, s1, h, record, faults);
            && s2.published == s.published + [Publication(record, o.Data())]
            && Final(record.originalName) in s2.files
            && s2.files[Final(record.originalName)] == Output(zstd, o.Data())
            && o.id !in s2.payloads && forall i :: Patch(o.id, i) in s2.files ==> Patch(o.id, i) in faults.left
  {
    hide Intact, Upload, Decodable, NoFaults, AssemblyRun, Assembled, Assembles, Fed, Output, Clean, AllWellFormed,
         Indices;
    UploadedSoFar(zstd, o, s, h, chunks, now);
    assert o.Total() > 0;
    var s1 := Upload(zstd, s, h, chunks, now);
    UploadedRecord(o, s, s1);
    var record := s1.payloads[o.id].record;
    CleanRecordAssembles(zstd, o, s1.files, record, faults);
    UndisturbedAssembly(zstd, s1, h, record, faults);
    FinalFileWritten(zstd, s1.files, record, faults);
  }
}
