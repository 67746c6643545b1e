/** Putting a complete file together. */
module Assembler {
  import opened Disk
  import opened Storage

  /** What the stream decoder makes of the last byte of all the input it has been given: the output
      it adds, whether it meets an error, and how much it still expects. */
  datatype Decoded = Decoded(produced: seq<bv8>, error: bool, pending: nat)

  type Decoder = seq<bv8> -> Decoded

  /** What can go wrong outside: opening, decoder allocation, chunk files that cannot be read and
      chunks after which the output cannot be written, syncing, renaming; and what is left of
      the patch directory when it is removed. */
  datatype Faults = Faults(
    open: bool, alloc: bool, unreadable: set<nat>, unwritable: set<nat>, sync: bool, rename: bool,
    left: set<Path>)

  // ----- Specification -----

  predicate Present(files: Files, slot: Option<Path>) {
    slot.Some? && slot.value in files
  }

  function Content(files: Files, slot: Option<Path>): seq<bv8> {
    if Present(files, slot) then files[slot.value] else []
  }

  /** The content of the first `n` chunk files. */
  function Fed(files: Files, slots: seq<Option<Path>>, n: nat): seq<bv8>
    requires n <= |slots|
  {
    if n == 0 then [] else Fed(files, slots, n - 1) + Content(files, slots[n - 1])
  }

  /** Chunk `i` can be read, goes through the decoder and out to the file; an empty chunk never
      reaches the decoder. */
  predicate Passes(files: Files, slots: seq<Option<Path>>, faults: Faults, zstd: Decoder, i: nat)
    requires i < |slots|
  {
    && Present(files, slots[i]) && i !in faults.unreadable
    && (Content(files, slots[i]) == [] || (!zstd(Fed(files, slots, i + 1)).error && i !in faults.unwritable))
  }

  predicate AllPass(files: Files, slots: seq<Option<Path>>, faults: Faults, zstd: Decoder, n: nat)
    requires n <= |slots|
  {
    forall i :: 0 <= i < n ==> Passes(files, slots, faults, zstd, i)
  }

  /** What comes out while a chunk goes in, after `fed`. */
  function Produced(zstd: Decoder, fed: seq<bv8>, chunk: seq<bv8>): seq<bv8>
    decreases |chunk|
  {
    if chunk == [] then []
    else Produced(zstd, fed, chunk[..|chunk| - 1]) + zstd(fed + chunk).produced
  }

  function Output(zstd: Decoder, fed: seq<bv8>): seq<bv8> {
    Produced(zstd, [], fed)
  }

  lemma {:induction false} OutputGoesOn(zstd: Decoder, fed: seq<bv8>, chunk: seq<bv8>)
    ensures Output(zstd, fed + chunk) == Output(zstd, fed) + Produced(zstd, fed, chunk)
    decreases |chunk|
  {
    if chunk == [] {
      assert fed + chunk == fed;
    } else {
      var init := chunk[..|chunk| - 1];
      OutputGoesOn(zstd, fed, init);
      assert (fed + chunk)[..|fed + chunk| - 1] == fed + init;
      assert [] + (fed + chunk) == fed + chunk;
    }
  }

  function Pending(zstd: Decoder, fed: seq<bv8>): nat {
    if fed == [] then 0 else zstd(fed).pending
  }

  /** The part file can be written out in full. */
  predicate Staged(files: Files, record: PayloadRecord, faults: Faults, zstd: Decoder)
    requires |record.chunkFiles| == record.totalChunks
  {
    var slots := record.chunkFiles;
    && !faults.alloc && !faults.sync && AllPass(files, slots, faults, zstd, |slots|)
    && Pending(zstd, Fed(files, slots, |slots|)) == 0
  }

  /** Exactly when a record is published. */
  predicate Assembles(files: Files, record: PayloadRecord, faults: Faults, zstd: Decoder) {
    |record.chunkFiles| == record.totalChunks && !faults.open && Staged(files, record, faults, zstd) && !faults.rename
  }

  /** The files afterwards.  A record of the wrong length and a part file that cannot be opened
      change nothing; a failed run removes its part file, except that a failed renaming leaves it;
      publication turns the part file into the final one and removes the patches. */
  function Assembled(files: Files, record: PayloadRecord, faults: Faults, zstd: Decoder): Files {
    var part, final := Part(record.originalName), Final(record.originalName);
    if |record.chunkFiles| != record.totalChunks || faults.open then files
    else if !Staged(files, record, faults, zstd) then files - {part}
    else
      var output := Output(zstd, Fed(files, record.chunkFiles, record.totalChunks));
      if faults.rename then files[part := output]
      else RemoveDirectories((files - {part})[final := output], {record.fileId}, faults.left)
  }

  /** The files listed are patches, so writing the part file does not disturb them. */
  ghost predicate ListsPatches(slots: seq<Option<Path>>) {
    forall i :: 0 <= i < |slots| ==> slots[i].None? || slots[i].value.Patch?
  }

  // ----- The assembler -----

  lemma FeedingChunk(zstd: Decoder, fed: seq<bv8>, chunk: seq<bv8>)
    ensures Output(zstd, fed + chunk) == Output(zstd, fed) + Produced(zstd, fed, chunk)
    ensures chunk == [] ==> fed + chunk == fed && Produced(zstd, fed, chunk) == []
    ensures chunk != [] ==> Pending(zstd, fed + chunk) == zstd(fed + chunk).pending
  {
    OutputGoesOn(zstd, fed, chunk);
    assert chunk == [] ==> fed + chunk == fed;
  }

  lemma AllPassStep(files: Files, slots: seq<Option<Path>>, faults: Faults, zstd: Decoder, n: nat)
    requires n < |slots|
    ensures AllPass(files, slots, faults, zstd, n + 1) <==>
              AllPass(files, slots, faults, zstd, n) && Passes(files, slots, faults, zstd, n)
  {}

  /** What reading one more chunk decides. */
  lemma ReadOne(files: Files, slots: seq<Option<Path>>, faults: Faults, zstd: Decoder, i: nat)
    requires i < |slots|
    ensures var content := Content(files, slots[i]);
            && Fed(files, slots, i + 1) == Fed(files, slots, i) + content
            && (Passes(files, slots, faults, zstd, i) <==>
                  && Present(files, slots[i]) && i !in faults.unreadable
                  && (content == [] || (!zstd(Fed(files, slots, i) + content).error && i !in faults.unwritable)))
    ensures AllPass(files, slots, faults, zstd, i) && Passes(files, slots, faults, zstd, i) ==>
              AllPass(files, slots, faults, zstd, i + 1)
    ensures !Passes(files, slots, faults, zstd, i) ==> !AllPass(files, slots, faults, zstd, |slots|)
  {
    hide Content, Present;
  }

  /** Feeds the chunks to the decoder in order, writing what comes out to the part file. */
  method ReadAndDecode(fs: FileSystem, record: PayloadRecord, faults: Faults, zstd: Decoder)
      returns (success: bool, pending: nat)
    requires |record.chunkFiles| == record.totalChunks && ListsPatches(record.chunkFiles)
    requires Part(record.originalName) in fs.files && fs.files[Part(record.originalName)] == []
    modifies fs
    ensures success == AllPass(old(fs.files), record.chunkFiles, faults, zstd, record.totalChunks)
    ensures var part, fed := Part(record.originalName), Fed(old(fs.files), record.chunkFiles, record.totalChunks);
            && fs.files - {part} == old(fs.files) - {part}
            && (success ==> pending == Pending(zstd, fed) && fs.files == old(fs.files)[part := Output(zstd, fed)])
  {
    hide Fed, AllPass, Passes, Output, Produced, Pending;
    ghost var before := fs.files;
    ghost var slots := record.chunkFiles;
    var part := Part(record.originalName);
    success, pending := true, 0;
    var input: seq<bv8> := [];
    NothingRead(before, slots, faults, zstd);
    for idx := 0 to record.totalChunks
      invariant success && AllPass(before, slots, faults, zstd, idx)
      invariant input == Fed(before, slots, idx) && pending == Pending(zstd, input)
      invariant fs.files == before[part := Output(zstd, input)]
    {
      ReadOne(before, slots, faults, zstd, idx);
      FeedingChunk(zstd, input, Content(before, slots[idx]));
      var path := record.chunkFiles[idx];
      if path == None || path.value !in fs.files || idx in faults.unreadable {
        return false, pending;
      }
      var chunk := fs.files[path.value];
      assert chunk == Content(before, slots[idx]);
      var produced := Produced(zstd, input, chunk);
      input := input + chunk;
      if |chunk| > 0 {
        var decoded := zstd(input);
        if decoded.error {
          return false, pending;
        }
        pending := decoded.pending;
        if idx in faults.unwritable {
          return false, pending;
        }
        fs.files := fs.files[part := fs.files[part] + produced];
      }
    }
  }

  lemma NothingRead(files: Files, slots: seq<Option<Path>>, faults: Faults, zstd: Decoder)
    ensures Fed(files, slots, 0) == [] && AllPass(files, slots, faults, zstd, 0)
    ensures Output(zstd, []) == [] && Pending(zstd, []) == 0
  {}

  method Assemble(fs: FileSystem, record: PayloadRecord, faults: Faults, zstd: Decoder) returns (path: Option<Path>)
    requires ListsPatches(record.chunkFiles)
    modifies fs
    ensures path == if Assembles(old(fs.files), record, faults, zstd) then Some(Final(record.originalName)) else None
    ensures fs.files == Assembled(old(fs.files), record, faults, zstd)
  {
    ghost var before := fs.files;
    if |record.chunkFiles| != record.totalChunks {
      return None;
    }
    var part, final := Part(record.originalName), Final(record.originalName);
    if faults.open {
      return None;
    }
    fs.files := fs.files[part := []];
    if faults.alloc {
      fs.files := fs.files - {part};
      return None;
    }
    SameReads(before, record.originalName, record.chunkFiles, faults, zstd, record.totalChunks);
    var success, pending := ReadAndDecode(fs, record, faults, zstd);
    if pending != 0 {
      success := false;
    }
    if faults.sync {
      success := false;
    }
    if !success {
      fs.files := fs.files - {part};
      return None;
    }
    if faults.rename {
      return None;
    }
    fs.files := (fs.files - {part})[final := fs.files[part]];
    fs.files := RemoveDirectories(fs.files, {record.fileId}, faults.left);
    path := Some(final);
  }

  /** Opening the part file does not change what the patches say. */
  lemma {:induction false} SameReads(
      files: Files, name: string, slots: seq<Option<Path>>, faults: Faults, zstd: Decoder, n: nat)
    requires n <= |slots| && ListsPatches(slots)
    ensures var started := files[Part(name) := []];
            && Fed(files, slots, n) == Fed(started, slots, n)
            && (AllPass(files, slots, faults, zstd, n) <==> AllPass(started, slots, faults, zstd, n))
    decreases n
  {
    hide AllPass, Passes, Fed, Content, Present;
    var started := files[Part(name) := []];
    NothingRead(files, slots, faults, zstd);
    NothingRead(started, slots, faults, zstd);
    if n == 0 {
    } else {
      SameReads(files, name, slots, faults, zstd, n - 1);
      SameSlot(files, name, slots[n - 1]);
      ReadOne(files, slots, faults, zstd, n - 1);
      ReadOne(started, slots, faults, zstd, n - 1);
      AllPassStep(files, slots, faults, zstd, n - 1);
      AllPassStep(started, slots, faults, zstd, n - 1);
    }
  }

  lemma SameSlot(files: Files, name: string, slot: Option<Path>)
    requires slot.None? || slot.value.Patch?
    ensures var started := files[Part(name) := []];
            Content(files, slot) == Content(started, slot) && Present(files, slot) == Present(started, slot)
  {}

  /** Whatever its chunks announced, a record the storage hands over is published only when every
      one of its slots holds its own patch and there is none beyond the total. */
  lemma NeverPublishesIncomplete(id: string, entry: Entry, files: Files, faults: Faults, zstd: Decoder)
    requires WellFormed(id, entry) && Assembles(files, entry.record, faults, zstd)
    ensures |entry.record.chunkFiles| == entry.record.totalChunks
    ensures entry.received == UpTo(entry.record.totalChunks)
    ensures forall i :: 0 <= i < entry.record.totalChunks ==>
              entry.record.chunkFiles[i] == Some(Patch(id, i)) && Patch(id, i) in files
  {
    var slots := entry.record.chunkFiles;
    forall i: nat | i < |slots|
      ensures i in entry.received && Present(files, slots[i])
    {
      assert Passes(files, slots, faults, zstd, i);
    }
    assert entry.received == UpTo(entry.record.totalChunks);
  }
}
