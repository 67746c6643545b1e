/** Which uploads a sweep takes, and which it spares. */
module Sweeps {
  import opened Disk
  import opened Storage
  import opened Assembler
  import opened Relay
  import opened Uploads

  /** When the last chunk of an upload was entered, and how long the upload may then stay. */
  datatype Lease = Lease(at: int, ttl: int)

  /** The default time to live: the one the server started with until it is changed. */
  function DefaultInForce(defaultTtl: int, steps: seq<Step>): int
    decreases |steps|
  {
    if steps == [] then defaultTtl
    else if steps[|steps| - 1].UpdateTtl? then steps[|steps| - 1].ttl
    else DefaultInForce(defaultTtl, steps[..|steps| - 1])
  }

  /** A chunk brings its own time to live, if it has a positive one, or the default in force when it is
      entered; a change of the default later on changes it too. */
  function LeaseOf(zstd: Decoder, files: Files, defaultTtl: int, steps: seq<Step>, id: string): Option<Lease>
    decreases |steps|
  {
    if steps == [] then None
    else
      var init, last := steps[..|steps| - 1], steps[|steps| - 1];
      var before := LeaseOf(zstd, files, defaultTtl, init, id);
      if Enters(Run(zstd, Initial(files, defaultTtl), init), last, id)
      then Some(Lease(last.now, if last.chunk.ttl > 0 then last.chunk.ttl else DefaultInForce(defaultTtl, init)))
      else if before == None || id !in Run(zstd, Initial(files, defaultTtl), steps).payloads then None
      else if last.UpdateTtl? then Some(before.value.(ttl := last.ttl))
      else before
  }

  predicate Holds(payloads: Payloads, id: string, lease: Option<Lease>) {
    lease == if id in payloads then Some(Lease(payloads[id].lastUpdate, payloads[id].ttl)) else None
  }

  lemma EnteredHolds(payloads: Payloads, chunk: ChunkData, now: int, ttl: int)
    requires chunk.index < chunk.totalChunks
    ensures Holds(Registered(payloads, chunk, now, ttl), chunk.fileId,
                  Some(Lease(now, if chunk.ttl > 0 then chunk.ttl else ttl)))
  {}

  lemma EnteringKeepsDefault(zstd: Decoder, s: State, chunk: ChunkData, now: int)
    requires chunk in s.written && chunk.index < chunk.totalChunks
    ensures Apply(zstd, s, Register(chunk, now)).defaultTtl == s.defaultTtl
  {
    hide Registered;
  }

  /** In every run the table has an entry for exactly the uploads with a lease, and knows it. */
  lemma {:induction false} TableHoldsLeases(
      zstd: Decoder, files: Files, defaultTtl: int, steps: seq<Step>, id: string)
    ensures var s := Run(zstd, Initial(files, defaultTtl), steps);
            && Holds(s.payloads, id, LeaseOf(zstd, files, defaultTtl, steps, id))
            && s.defaultTtl == DefaultInForce(defaultTtl, steps)
    decreases |steps|
  {
    hide Apply, Registered;
    if steps == [] {
    } else {
      var init, last := steps[..|steps| - 1], steps[|steps| - 1];
      var s := Run(zstd, Initial(files, defaultTtl), init);
      TableHoldsLeases(zstd, files, defaultTtl, init, id);
      if Enters(s, last, id) {
        EnteredHolds(s.payloads, last.chunk, last.now, s.defaultTtl);
        AfterEntering(zstd, s, last.chunk, last.now);
        EnteringKeepsDefault(zstd, s, last.chunk, last.now);
      } else {
        EntryAfterOthers(zstd, s, last, id);
      }
    }
  }

  /** The patches of an upload and their temporary files. */
  predicate Belongs(path: Path, id: string) { (path.Patch? || path.Temporary?) && path.fileId == id }

  predicate SameFiles(files: Files, files': Files, id: string) {
    && (forall p :: p in files && Belongs(p, id) ==> p in files' && files'[p] == files[p])
    && (forall p :: p in files' && Belongs(p, id) ==> p in files)
  }

  /** After every run: a sweep takes an upload out of the table if and only if more time than its lease
      allows has passed since its last chunk, and then removes its files as far as they can be removed;
      otherwise it leaves entry and files alone, and so it does with the files of uploads not under way
      and with everything published. */
  lemma SweepTakesTheExpired(
      zstd: Decoder, files: Files, defaultTtl: int, steps: seq<Step>, id: string, now: int, left: set<Path>)
    ensures var s := Run(zstd, Initial(files, defaultTtl), steps);
            var s' := Apply(zstd, s, Cleanup(now, left));
            && (match LeaseOf(zstd, files, defaultTtl, steps, id)
                case Some(lease) =>
                  if now - lease.at > lease.ttl
                  then && id !in s'.payloads
                       && forall p :: p in s.files && Belongs(p, id) ==> (p in s'.files <==> p in left)
                  else && id in s.payloads && id in s'.payloads && s'.payloads[id] == s.payloads[id]
                       && SameFiles(s.files, s'.files, id)
                case None => id !in s'.payloads && SameFiles(s.files, s'.files, id))
            && (forall p :: p in s.files && p.Stored? ==> p in s'.files && s'.files[p] == s.files[p])
  {
    hide Run, LeaseOf, Relinked;
    var s := Run(zstd, Initial(files, defaultTtl), steps);
    TableHoldsLeases(zstd, files, defaultTtl, steps, id);
    RelinkedKeeps(s.(payloads := WithoutExpired(s.payloads, now)),
                  RemoveDirectories(s.files, ExpiredIds(s.payloads, now), left));
  }

  /** The other sweep takes exactly the published files that are old enough, and no part file. */
  lemma OldFilesAreTaken(zstd: Decoder, s: State, aged: set<string>, path: Path)
    ensures var s' := Apply(zstd, s, RemoveOld(aged));
            && (path in s'.files ==> path in s.files && s'.files[path] == s.files[path])
            && (path in s.files && !path.Stored? ==> path in s'.files)
            && (path in s.files && path.Stored? ==>
                  (path !in s'.files <==>
                   path.name in aged && !(|path.name| >= 5 && path.name[|path.name| - 5..] == ".part")))
            && s'.payloads == s.payloads && s'.published == s.published
  {
    hide Relinked;
    RelinkedKeeps(s, WithoutOld(s.files, aged));
  }
}
