/** Only what the decoder takes for whole is published. */
module Decoding {
  import opened Disk
  import opened Storage
  import opened Assembler
  import opened Relay
  import opened Delivery

  /** What a job knows of the decoder is what the decoder says about its input. */
  predicate JobDecodes(zstd: Decoder, job: Job) {
    && job.pending == Pending(zstd, job.input)
    && (job.ok && job.input != [] ==> !zstd(job.input).error)
  }

  /** The decoder has met no error in the data and expects no more. */
  predicate Whole(zstd: Decoder, fed: seq<bv8>) {
    fed != [] ==> !zstd(fed).error && zstd(fed).pending == 0
  }

  ghost predicate Decodes(zstd: Decoder, s: State) {
    && (forall h :: h in s.jobs ==> JobDecodes(zstd, s.jobs[h]))
    && (forall p :: p in s.published ==> Whole(zstd, p.fed))
  }

  lemma HandlesAside(zstd: Decoder, s: State, s': State)
    requires Decodes(zstd, s) && SameButHandles(s.jobs, s'.jobs) && s'.published == s.published
    ensures Decodes(zstd, s')
  {}

  lemma OpenDecodes(zstd: Decoder, s: State, h: nat, record: PayloadRecord, openFails: bool, allocFails: bool)
    requires Decodes(zstd, s)
    ensures Decodes(zstd, Opened(s, h, record, openFails, allocFails))
  {
    hide Opened, Whole;
    RecordsAfterOpen(s, h, record, openFails, allocFails);
    OpenFrame(s, h, record, openFails, allocFails);
  }

  lemma ReadDecodes(zstd: Decoder, s: State, h: nat, unreadable: bool, unwritable: bool)
    requires Decodes(zstd, s) && h in s.jobs && CanRead(s.jobs[h])
    ensures Decodes(zstd, ChunkRead(zstd, s, h, unreadable, unwritable))
  {
    hide Whole, ChunkRead, CanRead;
    RecordsAfterRead(zstd, s, h, unreadable, unwritable);
    OneReadDecodes(zstd, s, h, unreadable, unwritable);
  }

  lemma OneReadDecodes(zstd: Decoder, s: State, h: nat, unreadable: bool, unwritable: bool)
    requires h in s.jobs && CanRead(s.jobs[h]) && JobDecodes(zstd, s.jobs[h])
    ensures var s' := ChunkRead(zstd, s, h, unreadable, unwritable);
            h in s'.jobs && JobDecodes(zstd, s'.jobs[h])
  {
    hide WriteTo, Content, Present, Produced, CanRead;
    var job := s.jobs[h];
    assert job.input + [] == job.input;
  }

  lemma PublishDecodes(zstd: Decoder, s: State, h: nat, syncFails: bool, renameFails: bool, leftover: set<Path>)
    requires Decodes(zstd, s) && h in s.jobs
    ensures Decodes(zstd, JobEnded(s, h, syncFails, renameFails, leftover))
  {
    hide JobEnded;
    RecordsAfterPublish(s, h, syncFails, renameFails, leftover);
  }

  lemma OtherStepDecodes(zstd: Decoder, s: State, step: Step)
    requires Decodes(zstd, s) && (step.Register? || step.Mark? || step.UpdateTtl? || step.Cleanup? || step.RemoveOld?)
    ensures Decodes(zstd, Apply(zstd, s, step))
  {
    hide Decodes, Relinked, RemoveDirectories, WithoutOld, Registered, Issues, WithTtl, WithoutExpired, ExpiredIds;
    match step
    case Register(_, _) => HandlesAside(zstd, s, Apply(zstd, s, step));
    case Mark(_) => HandlesAside(zstd, s, Apply(zstd, s, step));
    case UpdateTtl(_) => HandlesAside(zstd, s, Apply(zstd, s, step));
    case Cleanup(now, left) =>
      var swept := s.(payloads := WithoutExpired(s.payloads, now));
      RelinkedDecodes(zstd, s, swept, RemoveDirectories(s.files, ExpiredIds(s.payloads, now), left));
    case RemoveOld(aged) => RelinkedDecodes(zstd, s, s, WithoutOld(s.files, aged));
  }

  lemma RelinkedDecodes(zstd: Decoder, s: State, swept: State, files: Files)
    requires Decodes(zstd, s) && swept == s.(payloads := swept.payloads)
    ensures Decodes(zstd, Relinked(swept, files))
  {
    hide Decodes, Relinked;
    RelinkedKeeps(swept, files);
    RelinkedRecords(swept, files);
    HandlesAside(zstd, s, Relinked(swept, files));
  }

  lemma StepDecodes(zstd: Decoder, s: State, step: Step)
    requires Decodes(zstd, s)
    ensures Decodes(zstd, Apply(zstd, s, step))
  {
    hide Decodes, Opened, ChunkRead, JobEnded, CanRead, Relinked, ChunkEntered, StoreOpened, StoreWritten, StoreClosed,
         StoreFailed, CrcsMatch, IndexInRange, WithTtl, WithoutExpired;
    if step.OpenStore? || step.WriteStore? || step.CloseStore? {
      RecordsAfterStore(zstd, s, step);
      StoresFrame(zstd, s, step);
      HandlesAside(zstd, s, Apply(zstd, s, step));
    } else if step.Open? {
      if step.record in s.issued {
        OpenDecodes(zstd, s, step.h, step.record, step.openFails, step.allocFails);
      }
    } else if step.ReadChunk? {
      if step.h in s.jobs && CanRead(s.jobs[step.h]) {
        ReadDecodes(zstd, s, step.h, step.unreadable, step.unwritable);
      }
    } else if step.Publish? {
      if step.h in s.jobs {
        PublishDecodes(zstd, s, step.h, step.syncFails, step.renameFails, step.leftover);
      }
    } else {
      OtherStepDecodes(zstd, s, step);
    }
  }

  /** In every run, for every decoder and whatever arrives: whatever was published was read to its end
      without an error of the decoder, and the decoder expected no more of it. */
  lemma {:induction false} OnlyWholeStreamsArePublished(
      zstd: Decoder, files: Files, defaultTtl: int, steps: seq<Step>)
    ensures Decodes(zstd, Run(zstd, Initial(files, defaultTtl), steps))
    ensures forall p :: p in Run(zstd, Initial(files, defaultTtl), steps).published && p.fed != [] ==>
              !zstd(p.fed).error && zstd(p.fed).pending == 0
    decreases |steps|
  {
    hide Apply;
    if steps == [] {
    } else {
      var init := steps[..|steps| - 1];
      OnlyWholeStreamsArePublished(zstd, files, defaultTtl, init);
      StepDecodes(zstd, Run(zstd, Initial(files, defaultTtl), init), steps[|steps| - 1]);
    }
  }
}
