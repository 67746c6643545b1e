# Verification of the relay and the API gateway

Dafny models of two servers and the client between them, and proofs of what they are for.
`dafny verify dfyconfig.toml` checks everything.

- **Integrity.** `Crc32.dfy` (the table-driven and the bit-by-bit CRC-32, proved equal to the division of
  RFC 1952 section 8; and which damage a CRC detects), `Sha256.dfy` (two streaming SHA-256 classes, proved
  against FIPS 180-4, whose constants and functions are checked in `Sha256Constants.dfy` and whose example
  is followed round by round in `Sha256Example.dfy`), `Bytes.dfy` (bytes as numbers).
- **Wire formats.** `LittleEndian.dfy`, `PatchHeader.dfy`, `SystemMessages.dfy`: encoders and decoders as
  methods, and theorems saying exactly which byte strings are accepted and what they mean.
  `Layouts.dfy`: where every field lies. `HeaderDamage.dfy`: exactly which damage to a header goes unnoticed.
- **Relay, the parts.** `Disk.dfy` is a disk as a map from paths to bytes, with handles that follow a file
  when it is renamed and lose it when it is removed or replaced. `Chunker.dfy`, `Storage.dfy` and
  `Assembler.dfy` are the client's split and the server's objects over it.
- **Relay, the whole.** `Relay.dfy` is the server as a transition system: any number of handlers, each
  opening, writing and renaming a chunk's temporary file, registering the chunk, opening a part file,
  reading chunk by chunk, publishing and marking, interleaved in any way with each other, with
  time-to-live updates and with sweeps. `Server.dfy` shows that one handler on its own does what the objects'
  specifications say. Over all runs: nothing incomplete is published (`Relay.dfy`); what is published is
  the data the client split (`EndToEnd.dfy`, with `TornPatch.dfy` showing why its condition is needed); final
  files are what was published (`FinalFiles.dfy`, with the exact condition on names in `NameClash.dfy`);
  so what a client sends arrives (`Delivery.dfy`), and only what decodes to its end (`Decoding.dfy`); a sweep takes
  exactly the uploads whose time is over (`Sweeps.dfy`); and it is said exactly when a record called complete has
  no hole (`Uploads.dfy`). `Links.dfy` says where open files can be found.
- **Sender.** `Sender.dfy`: the bounded queue, the worker and the completion handlers as a transition system,
  one action a critical section, and the object whose methods are those sections. A wait on a condition
  variable is a guard. Theorems: no chunk is lost on drain, slots and metrics are conserved, and a closed
  sender always finishes.
- **Gateway.** `Breaker.dfy` (circuit breaker and retry loop), `EventStream.dfy` and `Sse.dfy` (event printer
  and stream buffer against a parser written from sections 9.2.5 and 9.2.6 of the WHATWG HTML standard),
  `Metrics.dfy` (cumulative latency histogram), `Tracing.dfy` (environment expansion and the traceparent
  header), `Strings.dfy` (searching).

Code that changes things step by step is a class or a method with loops, proved against a specification
function; the theorems are about those functions and about runs built from them. What comes from outside
(the disk's answers, clocks, random jitter, the peer) is a parameter.

Some results say that the code does not do what one would expect of it, each with a concrete input or run
and the condition under which it does.

- `Chunker.SplitIsComplete`: near 2^64 bytes the ceiling division wraps and the file is silently not sent.
- `Uploads.CompleteWithoutHoles`, `Uploads.CountingCanBeFooled`: when a later chunk announces more chunks than
  the first, storage can call a record with a hole complete; only the assembler's own test keeps it from
  being published.
- `EndToEnd.PublishedIsTheOriginal`, `TornPatch.TornPatchIsPublished`: the temporary file of a patch is shared,
  so two handlers storing the same chunk at once can publish a truncated file.
- `NameClash.FinalFilesAreAsPublished`, `NameClash.ClashPublishesTheOther`: the part file of `a` is the final file
  of `a.part`, so the content of one can be published as the other. `NameClash.TwinAssembliesSpoilTheFile`: two
  assemblies of the same name share it as well, and can publish an empty file.
- `Breaker.OldReadingsSlipThrough`, `Breaker.OldReadingIsAdmitted`: the gate compares a clock reading taken before
  the lock.
- `HeaderDamage.StraddlingDamageCanEscape`: the CRC of a header detects any four damaged bytes except across
  the edge of the field that holds it.
- `EventStream.EventRoundTrip`: an event whose data ends in a line feed loses it.

## Model

| member | source | states |
|---|---|---|
| Crc32.TableEntry | Backend/FileRelay_.server/common/bytes.hpp:18-28 | The builder's bit loop turns an index into the remainder RFC 1952 prescribes for it: eight division steps |
| Crc32.BuildTable | Backend/FileRelay_.server/common/bytes.hpp:30-41 | The table holds that remainder for each of the 256 bytes |
| Crc32.Accumulator.Update | Backend/FileRelay_.server/common/bytes.hpp:209-215 | However data is cut into updates, the register is the one the bit-serial division of RFC 1952, section 8, reaches on the bytes so far |
| Crc32.TableStep | Backend/FileRelay_.server/common/bytes.hpp:209-215 | One table lookup equals eight division steps of the register with the byte mixed in, for every register and byte |
| Crc32.TableDriven | Backend/FileRelay_.server/common/bytes.hpp:223-227 | The one-shot helper computes the CRC-32 of RFC 1952 for every byte string |
| Crc32.BitByBit | Backend/FileRelay_.server/Server/src/storage.hpp:226-244 | The server's bit loop computes the same CRC-32 as the shared table, for every byte string |
| Crc32.FeedAppends | Backend/FileRelay_.server/common/bytes.hpp:209-215 | Feeding a concatenation is feeding its parts one after the other |
| Crc32.ShiftIsLinear | Backend/FileRelay_.server/common/bytes.hpp:18-28 | A division step distributes over exclusive or, the reason the table works |
| ErrorDetection.FeedIsFeedBits | Backend/FileRelay_.server/Server/src/storage.hpp:226-244 | The byte-wise register is the bit-wise register of the data's bits, lowest first |
| ErrorDetection.DetectionDependsOnlyOnTheError | Backend/FileRelay_.server/Server/src/storage.hpp:226-263 | Two equally long payloads have the same CRC exactly when their difference alone drives an empty register back to empty, whatever the message |
| ErrorDetection.BurstIsDetected | Backend/FileRelay_.server/Server/src/storage.hpp:226-263 | Payloads that differ only within 32 consecutive bits, at any bit offset, have the same CRC only if they are equal |
| ErrorDetection.BurstOf33EscapesOnlyAsTheGenerator | Backend/FileRelay_.server/Server/src/storage.hpp:226-263 | The limit is exact: a burst of 33 bits starting with a wrong bit escapes exactly when the other 32 differences spell the generator polynomial |
| ErrorDetection.FourBytesAreDetected | Backend/FileRelay_.server/Server/src/storage.hpp:226-263 | Payloads that differ only in four consecutive bytes have the same CRC only if they are equal |
| ErrorDetection.CrcsDifferAsTheErrorFeeds | Backend/FileRelay_.server/Server/src/storage.hpp:226-244 | How two CRCs differ is what an empty register makes of how the messages differ |
| ErrorDetection.LeadingZeroIsNoticed | Backend/FileRelay_.server/common/bytes.hpp:207-217 | A zero byte put in front changes the CRC of every message, which is what the register's start is for |
| ErrorDetection.CheckValue | Backend/FileRelay_.server/common/bytes.hpp:205-227 | The CRC of the digits 1 to 9 is the check value of CRC-32, 0xCBF43926 |
| ErrorDetection.NothingHasCrcZero | Backend/FileRelay_.server/common/bytes.hpp:205-217 | The CRC of no bytes at all is zero |
| SharedSha256.Sha256.Update | Backend/FileRelay_.server/common/bytes.hpp:252-261 | The byte-at-a-time hasher has absorbed exactly the concatenation of everything it was given |
| SharedSha256.Sha256.ProcessBlock | Backend/FileRelay_.server/common/bytes.hpp:303-355 | Processing the buffer is one compression of section 6.2.2 of FIPS 180-4 |
| SharedSha256.Sha256.Finish | Backend/FileRelay_.server/common/bytes.hpp:263-294 | The result is the FIPS 180-4 digest of all that was absorbed, and the hasher is as new |
| Absorbing.CompressBuffer | Backend/FileRelay_.server/common/bytes.hpp:303-355 | Schedule and rounds, which both hashers share up to the order of sums, are one compression of section 6.2.2 of FIPS 180-4 |
| Absorbing.PadAndCompress | Backend/FileRelay_.server/common/bytes.hpp:263-282 | Padding what is buffered takes the state to the FIPS 180-4 hash of all that was absorbed, in one or two blocks |
| SharedSha256.HashOf | Backend/FileRelay_.server/common/bytes.hpp:296-300 | The one-shot digest is the FIPS 180-4 digest |
| ClientSha256.Sha256.Update | Backend/FileRelay_.server/Client/src/compressor.hpp:42-66 | The block-copying hasher has absorbed exactly the concatenation of everything it was given; after finalization it refuses and keeps its state |
| ClientSha256.Sha256.Transform | Backend/FileRelay_.server/Client/src/compressor.hpp:111-179 | The client's transform, with its own order of sums, is the same compression |
| ClientSha256.Sha256.Finalize | Backend/FileRelay_.server/Client/src/compressor.hpp:68-108 | The result is the FIPS 180-4 digest of all that was absorbed, also when asked for again |
| ClientSha256.HashFile | Backend/FileRelay_.server/Client/src/compressor.hpp:212-288 | However a file is cut into reads, its digest is that of its whole content, hence the one the shared hasher computes |
| Fips180.PaddingIsMinimal | Backend/FileRelay_.server/common/bytes.hpp:265-280 | The padding both hashers write has the least number of zero bits section 5.1.1 of FIPS 180-4 allows |
| Fips180.PaddingIsInjective | Backend/FileRelay_.server/common/bytes.hpp:263-282 | Different messages the standard covers have different padded forms |
| Fips180.HashBlocksAppend | Backend/FileRelay_.server/common/bytes.hpp:303-355 | Hashing one more block is compressing the hash of the blocks before it |
| Fips180Constants.ConstantsAreCubeRoots | Backend/FileRelay_.server/common/bytes.hpp:317-333 | Every round constant is the first 32 fractional bits of the cube root of its prime, the first 64 in turn |
| Fips180Constants.InitialHashIsSquareRoots | Backend/FileRelay_.server/common/bytes.hpp:244-250 | Every word of the initial hash is the first 32 fractional bits of the square root of one of the first eight primes |
| Fips180Constants.ChChooses | Backend/FileRelay_.server/common/bytes.hpp:47-49 | Ch has the bit of its second argument where the first has a one, and of the third elsewhere |
| Fips180Constants.MajAgrees | Backend/FileRelay_.server/common/bytes.hpp:51-53 | Maj agrees with two arguments wherever these agree |
| Fips180Constants.MajSidesWithTheThird | Backend/FileRelay_.server/common/bytes.hpp:51-53 | Where the first two differ, Maj has the bit of the third |
| Fips180Example.DigestOfAbc | Backend/FileRelay_.server/common/bytes.hpp:252-355 | The digest of abc is the 32 bytes of the standard's example, by following schedule, 64 rounds, sums and byte order |
| LittleEndian.WriteAt | Backend/FileRelay_.server/common/bytes.hpp:136-147 | Writing a number where the caller has made sure of the room places its little-endian bytes and leaves all others alone |
| LittleEndian.WriteChecked | Backend/FileRelay_.server/common/bytes.hpp:93-101 | The checked form does the same, or refuses and writes nothing exactly when the buffer is too small |
| LittleEndian.ReadAt | Backend/FileRelay_.server/common/bytes.hpp:103-113 | Reading yields the number the bytes at the offset encode, or refuses exactly when the buffer is too small |
| LittleEndian.TakeIntIff | Backend/FileRelay_.server/common/bytes.hpp:103-113 | Taking a number of some width off the front yields `v` and a rest exactly when the data is the encoding of `v` followed by that rest |
| LittleEndian.ByteReader.Read | Backend/FileRelay_.server/common/bytes.hpp:153-158 | A read fails exactly when too little is left, and otherwise returns the next number and moves past it |
| LittleEndian.ByteReader.ReadBytes | Backend/FileRelay_.server/common/bytes.hpp:160-167 | The same for a run of bytes |
| LittleEndian.ByteWriter.Write | Backend/FileRelay_.server/common/bytes.hpp:182-185 | Appends the little-endian bytes of a number |
| PatchHeader.SerializeHeader | Backend/FileRelay_.server/common/protocol.hpp:36-58 | The forty bytes of a header, with its CRC field or zeros in its place |
| PatchHeader.EncodePatchHeader | Backend/FileRelay_.server/common/protocol.hpp:112-121 | The encoder writes the header with the CRC it ought to have, whatever CRC it was given |
| PatchHeader.DeserializeHeader | Backend/FileRelay_.server/common/protocol.hpp:78-109 | The decoder's checks in their order, and the fields it returns |
| PatchHeader.DeserializeIsInverse | Backend/FileRelay_.server/common/protocol.hpp:78-121 | A header is accepted exactly when its first forty bytes are what the encoder makes of the result, with the supported version and size and the right CRC |
| PatchHeader.HeaderRoundTrip | Backend/FileRelay_.server/common/protocol.hpp:78-121 | Decoding an encoded header, whatever follows it, gives it back with the right CRC exactly when its version is 1 and its size 40 |
| Bytes.PlaceValues | Backend/FileRelay_.server/common/bytes.hpp:76-91 | The bits of a byte are worth the powers of two, lowest first |
| Layouts.LowestByteFirst | Backend/FileRelay_.server/common/bytes.hpp:76-83 | Numbers are written lowest byte first |
| Layouts.LowestByteRead | Backend/FileRelay_.server/common/bytes.hpp:103-113 | And read so |
| Layouts.HeaderLayout | Backend/FileRelay_.server/common/protocol.hpp:36-58 | Magic and fields of an encoded header, each at its offset |
| Layouts.HeaderRead | Backend/FileRelay_.server/common/protocol.hpp:78-109 | What is taken from an accepted header comes from those offsets, and only version 1 with 40 bytes is accepted |
| PatchHeader.DamageIsRejected | Backend/FileRelay_.server/common/protocol.hpp:60-109 | Damage confined to four consecutive bytes wholly inside or wholly outside the CRC field is always rejected |
| HeaderDamage.AcceptanceDependsOnlyOnTheError | Backend/FileRelay_.server/common/protocol.hpp:60-109 | For any damage to an accepted header, wherever it lies: it goes unnoticed exactly when magic, version and size are intact and the error in the CRC field is the CRC register of the error elsewhere, whatever the header says |
| HeaderDamage.StraddlingDamageCanEscape | Backend/FileRelay_.server/common/protocol.hpp:60-109 | Across the edge of the CRC field four changed bytes can escape: one such change does, in every header |
| SystemMessages.EncodeSystemMessage | Backend/FileRelay_.server/common/protocol.hpp:159-186 | The bytes of a system message |
| SystemMessages.DecodeSystemMessage | Backend/FileRelay_.server/common/protocol.hpp:209-239 | The decoder's result, errors included, on every byte string |
| SystemMessages.DecodeFileMeta | Backend/FileRelay_.server/common/protocol.hpp:188-199 | The same for a file description |
| SystemMessages.DecodeIsInverse | Backend/FileRelay_.server/common/protocol.hpp:159-239 | The decoder returns `m` exactly when the data starts with the encoding of `m` and `m` is well formed: tag and payload agree and the name is shorter than 2^32 bytes |
| SystemMessages.MessageRoundTrip | Backend/FileRelay_.server/common/protocol.hpp:159-239 | Decoding an encoded message followed by anything gives it back exactly when it is well formed |
| Layouts.MessageLayout | Backend/FileRelay_.server/common/protocol.hpp:123-186 | The tag bytes of each kind of message and the offset of each of its fields |
| SystemMessages.StrictPrefixIsRejected | Backend/FileRelay_.server/common/protocol.hpp:159-239 | Every strict prefix of an encoded message is rejected as too short |
| Chunker.Split | Backend/FileRelay_.server/Client/src/chunker.hpp:28-56 | The chunks: their number, order, indices, totals, file and payloads; none for empty data |
| Chunker.SplitReassembles | Backend/FileRelay_.server/Client/src/chunker.hpp:28-56 | Put together by the numbers they carry, the chunks of a split are the file, exactly when the ceiling division does not wrap around 64 bits |
| Chunker.SplitIsComplete | Backend/FileRelay_.server/Client/src/chunker.hpp:36-53 | The payloads joined are the data exactly when the ceiling division does not wrap around 64 bits |
| Chunker.WrappedTotalIsZero | Backend/FileRelay_.server/Client/src/chunker.hpp:36 | When it wraps, a non-empty file yields no chunk at all |
| Chunker.PieceSizes | Backend/FileRelay_.server/Client/src/chunker.hpp:38-53 | No chunk is empty or too long, and only the last may be short |
| Storage.Storage.VerifyCrc | Backend/FileRelay_.server/Server/src/storage.hpp:246-263 | Accepts a chunk exactly when both its CRCs are the RFC 1952 CRCs of its header bytes and payload |
| Storage.Storage.WriteBinaryFile | Backend/FileRelay_.server/Server/src/storage.hpp:265-315 | However the payload is cut into writes: success exactly when every call succeeds, and what is then, or after each failure, under the temporary and the final name |
| Storage.Storage.WriteChunk | Backend/FileRelay_.server/Server/src/storage.hpp:83-107 | A chunk becomes a patch exactly when its CRCs match and every call succeeds; the whole disk afterwards in every case |
| Storage.Storage.Register | Backend/FileRelay_.server/Server/src/storage.hpp:109-148 | The table after a chunk is entered, and the record handed out when the count of received indices is the total |
| Storage.Storage.StoreChunk | Backend/FileRelay_.server/Server/src/storage.hpp:83-149 | Disk, table and result of storing one chunk, on success and on each failure |
| Storage.Storage.MarkPublished | Backend/FileRelay_.server/Server/src/storage.hpp:151-155 | Forgets one file and no other |
| Storage.Storage.ReadyPayloads | Backend/FileRelay_.server/Server/src/storage.hpp:157-170 | Returns the records of exactly the complete files, each once |
| Storage.Storage.UpdateTtl | Backend/FileRelay_.server/Server/src/storage.hpp:172-181 | Every file under way and the default get the new time to live; nothing else changes |
| Storage.Storage.CleanupExpired | Backend/FileRelay_.server/Server/src/storage.hpp:183-206 | Removes exactly the expired files from the table and, as far as the disk lets it, their directories; no other file changes |
| Storage.RegisterKeepsWellFormed | Backend/FileRelay_.server/Server/src/storage.hpp:111-127 | The table always lists, for each file, exactly the received indices, each with its own patch |
| Storage.CountingIsEnough | Backend/FileRelay_.server/Server/src/storage.hpp:121-146 | When the list has the announced length, the size test succeeds exactly when the received indices are 0 to total-1 |
| Storage.HandedOutWithoutHoles | Backend/FileRelay_.server/Server/src/storage.hpp:121-146 | Of the records handed out, those without an empty slot are exactly those whose list is as long as the announced total |
| Uploads.CompleteWithoutHoles | Backend/FileRelay_.server/Server/src/storage.hpp:109-146 | In every run, a record called complete has no empty slot if and only if no chunk entered for the file announced more chunks than the first one did |
| Uploads.CountingCanBeFooled | Backend/FileRelay_.server/Server/src/storage.hpp:109-146 | Chunks every handler accepts for which that fails: a record with a hole is handed out |
| Uploads.TableFollowsTheChunks | Backend/FileRelay_.server/Server/src/storage.hpp:109-127 | In every run an entry is what the chunks entered since it was made amount to: the first fixes the total, the greatest announcement the length of the list, their indices the received set |
| Storage.DamagedPayloadIsRejected | Backend/FileRelay_.server/Server/src/storage.hpp:246-263 | A payload damaged in a burst of at most 32 bits never passes verification |
| Storage.DamagedHeaderIsRejected | Backend/FileRelay_.server/Server/src/storage.hpp:246-263 | Header bytes damaged in such a burst do not either |
| Sweeps.TableHoldsLeases | Backend/FileRelay_.server/Server/src/storage.hpp:109-181 | In every run the table has an entry for exactly the uploads with a lease: since the last chunk entered, for that chunk's time to live if positive, else the default then in force, or what a later change of the default made it |
| Sweeps.SweepTakesTheExpired | Backend/FileRelay_.server/Server/src/storage.hpp:183-206 | After every run a sweep takes an upload if and only if more time than its lease allows has passed, and its files as far as they can be removed; all other entries and files stay as they are |
| Sweeps.OldFilesAreTaken | Backend/FileRelay_.server/Server/src/main.cpp:146-194 | The sweep of published files removes exactly those that are old enough and are no part files |
| Assembler.ReadAndDecode | Backend/FileRelay_.server/Server/src/assembler.hpp:74-111 | Chunks go through the decoder in order; success exactly when each is there, readable, decodable and written, and then the part file is the decoder's whole output |
| Assembler.Assemble | Backend/FileRelay_.server/Server/src/assembler.hpp:40-147 | Exactly when a record is published, and the whole disk afterwards in every case of failure and success |
| Assembler.NeverPublishesIncomplete | Backend/FileRelay_.server/Server/src/assembler.hpp:42-81 | Of the records storage hands out, only those with every slot filled by its own patch, and none beyond the total, are ever published |
| Server.DataServer.Handle | Backend/FileRelay_.server/Server/src/main.cpp:313-393 | One data request on its own changes disk, table and counters as the steps of its handler do: guard, store, register, assemble, mark |
| Server.DataServer.AssembleAndMark | Backend/FileRelay_.server/Server/src/main.cpp:374-386 | Assembling and marking on its own is the run of the assembly's steps; each attempt is counted once |
| Server.UndisturbedStore | Backend/FileRelay_.server/Server/src/storage.hpp:83-107 | Opening, writing and renaming a temporary file, with nothing in between, amount to the storage object's specification |
| Server.UndisturbedAssembly | Backend/FileRelay_.server/Server/src/assembler.hpp:40-147 | Opening, reading chunk by chunk, publishing and marking, with nothing in between, amount to the assembler's specification |
| Relay.StepKeepsSound | Backend/FileRelay_.server/Server/src/main.cpp:313-386 | Every step of every handler, of the control channel and of the sweep keeps the server's invariant |
| Relay.NothingIncompleteIsPublished | Backend/FileRelay_.server/Server/src/main.cpp:313-393 | In every interleaving, for any chunks on any disk: no record with an empty or surplus slot is published |
| Decoding.OnlyWholeStreamsArePublished | Backend/FileRelay_.server/Server/src/assembler.hpp:74-120 | In every run, whatever is published was decoded without an error and to the end of the stream |
| Links.RunKeepsLinks | Backend/FileRelay_.server/Server/src/storage.hpp:265-315 | In every run an open store file is found only under its temporary or patch name, and an open part file only among the stored files |
| EndToEnd.StepKeepsFaithful | Backend/FileRelay_.server/Server/src/main.cpp:313-386 | Every step keeps the patches of a file clean, as long as nobody opens a temporary file another handler is still writing |
| EndToEnd.PublishedIsTheOriginal | Backend/FileRelay_.server/Server/src/main.cpp:313-393 | End to end: if the chunks stored under a file id come from one split, each intact or damaged in a burst of at most 32 bits, and no two handlers store the same chunk of it at once, then every publication of that id was fed exactly the split data, in every interleaving with duplicates, losses, failures, expiries and other files, even between the writes of a store and the reads of an assembly |
| EndToEnd.CarriedIsFromSplit | Backend/FileRelay_.server/Client/src/chunker.hpp:28-56 | A chunk that carries the number, total and payload of a chunk of the client's split, intact or damaged in a burst, is one the end-to-end theorem speaks of |
| TornPatch.TornPatchIsPublished | Backend/FileRelay_.server/Server/src/storage.hpp:265-315 | That condition is needed: two handlers storing the same intact chunk at once can publish the file as empty, with every call succeeding, whatever the decoder and the data |
| FinalFiles.RunIsOrderly | Backend/FileRelay_.server/Server/src/assembler.hpp:40-147 | While no name is assembled twice at once and no name in use is another followed by .part: every part file holds what its handler has decompressed and every final file what its last publication was fed, decompressed, or what was there before |
| NameClash.FinalFilesAreAsPublished | Backend/FileRelay_.server/Server/src/assembler.hpp:48-147 | Final files are always as published, in every run with one assembly of a name at a time, if and only if no name in use is another one followed by .part, since part files and published files share a directory |
| NameClash.ClashPublishesTheOther | Backend/FileRelay_.server/Server/src/assembler.hpp:48-134 | Two such names: in this run the content of one file is published as the other, with every call succeeding |
| NameClash.TwinAssembliesSpoilTheFile | Backend/FileRelay_.server/Server/src/assembler.hpp:48-134 | One assembly of a name at a time is needed: in this run two files of one name are assembled at once and an empty file is published for data that is not |
| Delivery.RunOwns | Backend/FileRelay_.server/Server/src/main.cpp:313-393 | In every run a name that only chunks of one file id announce stays with that id in every chunk, record, assembly and publication |
| Delivery.TheDataArrives | Backend/FileRelay_.server/Server/src/main.cpp:313-393 | What a client splits and sends under an id and a name of its own arrives: under the conditions above, after every run, the file published under the name is the decompression of exactly that data, or nothing has been published and it is the file that was there before |
| Delivery.TheSplitArrives | Backend/FileRelay_.server/Client/src/chunker.hpp:28-56 | The same from the sequence of chunks the client's split returns |
| Uploads.IssuedWhenNothingIsMissing | Backend/FileRelay_.server/Server/src/storage.hpp:112-148 | In every run in which all chunks of a file announce the same total, whatever they contain: a chunk yields a record exactly when with it no index is missing any more |
| Uploads.AnyOrderUploads | Backend/FileRelay_.server/Server/src/main.cpp:373-386 | Uploading every index, in any order and with repetitions, issues a record, and assembling it undisturbed publishes the decompressed original |
| BlockingQueue.BoundedBlockingQueue.Push | Backend/FileRelay_.server/Client/src/queue.hpp:22-46 | Accepts at the back unless closed; never exceeds the capacity |
| BlockingQueue.BoundedBlockingQueue.Pop | Backend/FileRelay_.server/Client/src/queue.hpp:48-60 | Returns the front; nothing is returned only from a closed and empty queue |
| BlockingQueue.BoundedBlockingQueue.Close | Backend/FileRelay_.server/Client/src/queue.hpp:62-70 | Closes and keeps what is queued |
| SenderObject.SenderState.NextConnection | Backend/FileRelay_.server/Client/src/sender.hpp:359-369 | Connections are used in turn and the index stays in range |
| SenderObject.SenderState.Acquire | Backend/FileRelay_.server/Client/src/sender.hpp:513-527 | Takes a slot exactly when no stop is requested |
| SenderObject.SenderState.Release | Backend/FileRelay_.server/Client/src/sender.hpp:529-549 | Gives a slot back and says whether the drain is to be woken |
| SenderObject.SenderState.OnChunkSuccess | Backend/FileRelay_.server/Client/src/sender.hpp:562-584 | The success handler's sections are those of the transition system |
| SenderObject.SenderState.OnChunkFailure | Backend/FileRelay_.server/Client/src/sender.hpp:586-620 | The failure handler's sections are those of the transition system: drop after the last attempt, otherwise queue the next one |
| SenderObject.SenderState.WorkerTurn | Backend/FileRelay_.server/Client/src/sender.hpp:395-489 | Each critical section of the worker loop is a step of the transition system |
| Sender.StepKeepsInv | Backend/FileRelay_.server/Client/src/sender.hpp:385-620 | Every critical section of worker, handlers and producer keeps the invariant |
| Sender.RunKeepsInv | Backend/FileRelay_.server/Client/src/sender.hpp:385-620 | So does every run |
| Sender.SlotsAlwaysBalance | Backend/FileRelay_.server/Client/src/sender.hpp:513-549 | In every reachable state the in-flight counter is the number of acquired, unreleased slots, at most the number of connections, and positive whenever a slot is released |
| Sender.DrainLosesNothing | Backend/FileRelay_.server/Client/src/sender.hpp:411-461 | If the worker leaves by the drain branch, every accepted chunk was, exactly once, delivered within, or dropped after exactly, max(1, max_send_retries) attempts |
| Sender.DroppedAfterAllAttempts | Backend/FileRelay_.server/Client/src/sender.hpp:557-614 | In every reachable state a dropped chunk has failed exactly max(1, max_send_retries) times, and no chunk waits for or makes a later attempt |
| Sender.TakenInOrder | Backend/FileRelay_.server/Client/src/sender.hpp:403-452 | In every reachable state the queue is the end of what was accepted: chunks are first attempted in the order of their acceptance |
| Sender.DrainWaitIsAnnounced | Backend/FileRelay_.server/Client/src/sender.hpp:417-460 | In every reachable state the finishing flag is set while the worker waits for the drain and cleared when it goes on, so the release of the last slot wakes it |
| Sender.StoppedWorkerLeaves | Backend/FileRelay_.server/Client/src/sender.hpp:403-492 | A worker asked to stop connects no more and ends within five turns of its loop |
| Sender.FallbacksAreUnreachable | Backend/FileRelay_.server/Client/src/sender.hpp:416-456 | The second look at the counter always finds it zero and the queue found empty is always closed |
| Sender.MetricsCountWhatHappened | Backend/FileRelay_.server/Client/src/sender.hpp:562-654 | Over all reported windows and the open one: chunks are deliveries, bytes the sum of their sizes, retries the retry pushes of all finished chunks |
| Sender.AbandonedOnlyOnStop | Backend/FileRelay_.server/Client/src/sender.hpp:463-466 | Only a worker asked to stop abandons the chunk in its hands |
| Sender.AlwaysSomethingEnabled | Backend/FileRelay_.server/Client/src/sender.hpp:395-489 | Until a closed, unstopped sender is done, the worker, a send or a handler can always move |
| Sender.StepDecreases | Backend/FileRelay_.server/Client/src/sender.hpp:395-620 | Each such move decreases a measure built from the remaining attempts of queued, held, in-flight and waiting chunks |
| Sender.ClosedSenderDrains | Backend/FileRelay_.server/Client/src/sender.hpp:395-620 | So every such run is finite, and one that can go no further has drained |
| Breaker.BreakerIsSound | Backend/SuperAPI._server/src/providers/HttpProviderBase.cpp:278-378 | Under any interleaving of requests with threshold at least 1: the breaker counts failures since the last success or reset, is open exactly from the threshold on, and admits nobody within the cooldown after a trip unless a success came in between |
| Breaker.ThresholdMustBePositive | Backend/SuperAPI._server/src/providers/HttpProviderBase.cpp:329-337 | Being open exactly from the threshold on holds in every run if and only if the threshold is at least 1 |
| Breaker.GateFollowsTheLog | Backend/SuperAPI._server/src/providers/HttpProviderBase.cpp:278-288 | After every run the gate refuses a request exactly when its clock reading lies before the end of the cooldown that the log of events says is in force, and one that passes an open breaker resets it |
| Breaker.FailureTripsExactly | Backend/SuperAPI._server/src/providers/HttpProviderBase.cpp:329-337 | After every run a failure trips the breaker, or prolongs its cooldown, exactly when the failures since the last success or reset reach the threshold |
| Breaker.RunningAreUnfinished | Backend/SuperAPI._server/src/providers/HttpProviderBase.cpp:278-378 | In every run the requests under way are those admitted that have neither failed nor succeeded |
| Breaker.OldReadingsSlipThrough | Backend/SuperAPI._server/src/providers/HttpProviderBase.cpp:278-288 | Measured by the reading a request took before the lock, the cooldown is not respected: with threshold 1, in this run from a new breaker a request with a reading from the moment of the trip is admitted once another one has reset the breaker |
| Breaker.OldReadingIsAdmitted | Backend/SuperAPI._server/src/providers/HttpProviderBase.cpp:278-288 | After every run, a waiting request whose reading lies before the end of the cooldown of a trip no success has ended is admitted if and only if the breaker has been reset by then |
| Breaker.HttpProvider.ReachGate | Backend/SuperAPI._server/src/providers/HttpProviderBase.cpp:279-288 | The gate: whom it admits and when it resets the breaker |
| Breaker.HttpProvider.Judge | Backend/SuperAPI._server/src/providers/HttpProviderBase.cpp:322-379 | One answer ends the request exactly when it is not to be retried or was the last one, with the right result and exactly one breaker update |
| Breaker.HttpProvider.Retry | Backend/SuperAPI._server/src/providers/HttpProviderBase.cpp:298-387 | At most maxRetries+1 calls, retries only after retryable answers, each delay base*2^attempt plus its jitter up to the maximum, bounded total sleep, one breaker update, and the end of the function is never reached |
| Breaker.HttpProvider.PerformRequest | Backend/SuperAPI._server/src/providers/HttpProviderBase.cpp:247-387 | The same for a whole request; local errors and an open breaker end it before any call and leave the breaker alone |
| Breaker.SucceedsExactly | Backend/SuperAPI._server/src/providers/HttpProviderBase.cpp:298-387 | A request succeeds if and only if one of the at most maxRetries+1 answers is a 2xx with valid JSON and all before it are transport errors, 429 or 5xx |
| Breaker.BackoffSaturates | Backend/SuperAPI._server/src/providers/HttpProviderBase.cpp:34-46 | Once doubling reaches the maximum, every later delay is the maximum |
| Breaker.BackoffDoubles | Backend/SuperAPI._server/src/providers/HttpProviderBase.cpp:34-46 | Without jitter the first delay is the base and each is twice the one before, up to the maximum |
| EventStream.EscapeDataLoop | Backend/SuperAPI._server/src/http/SSE.cpp:13-35 | The printer's loop prints one data line for each line of the data and a blank line |
| EventStream.PrintedEvent | Backend/SuperAPI._server/src/http/SSE.cpp:160-167 | An event of one line of data, spelled out byte by byte |
| EventStream.PrintedLines | Backend/SuperAPI._server/src/http/SSE.cpp:13-35 | Each line of the data is printed on a line of its own |
| EventStream.FeedEvent | Backend/SuperAPI._server/src/http/SSE.cpp:160-167 | A parser of WHATWG HTML, sections 9.2.5 and 9.2.6, between events reads a printed event as exactly one event, losing a line feed at the end of its data |
| EventStream.EventRoundTrip | Backend/SuperAPI._server/src/http/SSE.cpp:160-167 | An event survives printing and parsing exactly when its name has no line end and its data has no CR and does not end in a line feed |
| Sse.SseStream.FlushUnlocked | Backend/SuperAPI._server/src/http/SSE.cpp:101-118 | Writes frames in order until all are out or a write fails, which closes the stream |
| Sse.SseStream.EnqueueUnlocked | Backend/SuperAPI._server/src/http/SSE.cpp:84-99 | A frame is queued and flushed, or ignored when closed; over the limit the stream hangs on its own lock |
| Sse.SseStream.OnStreamReady | Backend/SuperAPI._server/src/http/SSE.cpp:68-82 | Readiness sends the retry frame and everything pending |
| Sse.SseStream.SendHeartbeat | Backend/SuperAPI._server/src/http/SSE.cpp:145-152 | A heartbeat goes out behind what is pending |
| Sse.SseStream.SendTextEvent | Backend/SuperAPI._server/src/http/SSE.cpp:160-178 | An event is printed and enqueued |
| Sse.SseStream.Close | Backend/SuperAPI._server/src/http/SSE.cpp:200-213 | Closing drops what is pending, once |
| Sse.RunInOrder | Backend/SuperAPI._server/src/http/SSE.cpp:68-213 | In every run the written text is a prefix of the accepted frames, the pending ones are the rest, and the byte count is their length |
| Sse.StepAccepts | Backend/SuperAPI._server/src/http/SSE.cpp:68-178 | What each call adds to the frames of an open stream: readiness the retry frame, once; a timer tick a heartbeat, once ready; a post its event |
| Sse.StreamEndsExactly | Backend/SuperAPI._server/src/http/SSE.cpp:84-118 | After every run, an open stream overflows exactly when a frame other than a heartbeat takes the buffer over its limit, and closes exactly at its end or when a write fails |
| Sse.NewStream | Backend/SuperAPI._server/src/http/SSE.cpp:40-66 | A stream is open from the start and waits to be ready |
| Sse.ReaderSeesPostedEvents | Backend/SuperAPI._server/src/http/SSE.cpp:68-213 | When no event posted has a line end in its name or a CR in its data, what a reader parses is a prefix of those posted while the stream was open, each without a line feed at its end, in order, and all of them while it is open and ready, and the reader knows the reconnection time of 5000 ms once the retry frame is written, wherever heartbeats, readiness, failing writes, overflow or the end fall |
| Metrics.AddLatency | Backend/SuperAPI._server/src/core/Metrics.cpp:77-91 | The bucket loop raises the count of the first bucket the latency fits in, or the last one |
| Metrics.MetricsRegistry.RecordRequest | Backend/SuperAPI._server/src/core/Metrics.cpp:56-96 | A series is always what its history of requests and errors amounts to; one request adds one entry to one series |
| Metrics.MetricsRegistry.IncrementError | Backend/SuperAPI._server/src/core/Metrics.cpp:41-54 | An error alone adds an error entry; an empty type does nothing |
| Metrics.MetricsRegistry.RenderPrometheus | Backend/SuperAPI._server/src/core/Metrics.cpp:145-172 | A scrape reports, for exactly the known series, the values of its history |
| Metrics.RenderBuckets | Backend/SuperAPI._server/src/core/Metrics.cpp:159-168 | The rendering loop's values are the running sums of the counts |
| Metrics.ScrapeTellsHistory | Backend/SuperAPI._server/src/core/Metrics.cpp:56-172 | After any history each reported bucket is the number of latencies at or below its bound, and the unbounded bucket, the count and the request total are the number of requests |
| Metrics.ScrapeTellsTotals | Backend/SuperAPI._server/src/core/Metrics.cpp:56-96 | After any history the byte, token and stream event counters are the sums over the recorded requests |
| Metrics.ScrapeBounds | Backend/SuperAPI._server/src/core/Metrics.cpp:15 | The ten bounds of the buckets, in milliseconds |
| Metrics.RequestObservation.DoComplete | Backend/SuperAPI._server/src/core/Metrics.cpp:197-233 | The first completion records one request; any later one does nothing |
| Metrics.RequestObservation.Destroy | Backend/SuperAPI._server/src/core/Metrics.cpp:191-195 | Destruction records an abandoned request exactly when nobody completed it |
| Metrics.RecordedExactlyOnce | Backend/SuperAPI._server/src/core/Metrics.cpp:191-233 | Over a whole life each observation is recorded exactly once, as its first completion says or as abandoned |
| Metrics.RecordSpelledOut | Backend/SuperAPI._server/src/core/Metrics.cpp:191-233 | What is recorded: the final numbers of the first completion with the tokens counted before, a 4xx or 5xx standing for an unnamed error; or what had been counted, as abandoned |
| Tracing.ResolveEnv | Backend/SuperAPI._server/src/core/Tracing.cpp:49-72 | The in-place loop ends, though the value may grow, and equals the one-pass expansion on every value |
| Tracing.ReplacementMeans | Backend/SuperAPI._server/src/core/Tracing.cpp:58-68 | A reference stands for its variable if that is set and not empty, else for its fallback, else for nothing |
| Tracing.ExpansionIsMeaning | Backend/SuperAPI._server/src/core/Tracing.cpp:49-72 | Expansion replaces each reference by its variable, if that is set and not empty, or else by its fallback if it has one, and never rescans what it substituted, whatever the variables contain |
| Tracing.EveryValueIsATemplate | Backend/SuperAPI._server/src/core/Tracing.cpp:49-72 | Every value is the printed form of some template, so that covers all inputs |
| Tracing.ExtractTraceparent | Backend/SuperAPI._server/src/core/Tracing.cpp:207-240 | The parser's result on every header |
| Tracing.TraceparentRoundTrip | Backend/SuperAPI._server/src/core/Tracing.cpp:207-247 | A context survives the header exactly when it is the empty one, or its ids have lengths 32 and 16 and none of its parts contains a dash |
| Tracing.HeaderSpelledOut | Backend/SuperAPI._server/src/core/Tracing.cpp:207-247 | The header of a context, and the context taken from it, spelled out |
| Tracing.NoHeader | Backend/SuperAPI._server/src/core/Tracing.cpp:242-247 | Exactly a context that lacks an id has no header |
| Tracing.NothingExtracted | Backend/SuperAPI._server/src/core/Tracing.cpp:207-240 | From any other header nothing is taken and the flags say sampled |
| Tracing.ExtractedHeader | Backend/SuperAPI._server/src/core/Tracing.cpp:207-247 | An accepted header starts with the header of the context extracted, followed by nothing or a dash |

## Left out

- The zstd library: the decoder is an arbitrary function of all the input so far, and the inner loop that drains its output buffer is one step.
- Sockets, thread pools, timers, reconnects and signals are nondeterministic steps; notifications of condition variables, and so whether a waiting thread is woken, are not modelled.
- The sender's sends are taken to complete exactly once each; stopping the I/O context with sends pending is not modelled.
- The text protocol of the data channel: the server starts at a parsed chunk, as the client writes a different format.
- The sender's stop path beyond the chunk in hand: queued and waiting chunks are left behind by design.
- Path arithmetic: file ids and names are taken as plain, non-empty path components, a patch and its temporary file are identified by file id and index, and the manifest `ids.list` is not modelled.
- Output written before a decoding error within the same chunk, and writes to a part file in several pieces: a chunk read is one step, and after an error only the removal of the part file follows.
- Storage.Storage.WriteBinaryFile: an interrupted write is simply repeated, and a write that takes no byte is not modelled.
- A file named just `.part` is taken for a part file, although it has no extension.
- The age-based removal of final files removes an arbitrary set of them, except names that end in `.part`.
- EndToEnd.PublishedIsTheOriginal: supposes one store of a chunk of the file at a time; TornPatch.TornPatchIsPublished shows a run without.
- Delivery.TheDataArrives: supposes what EndToEnd.PublishedIsTheOriginal and FinalFiles.RunIsOrderly suppose, and that no other file id uses the name.
- FinalFiles.RunIsOrderly: supposes one assembly of a name at a time; NameClash.TwinAssembliesSpoilTheFile shows a run without.
- PatchHeader.DamageIsRejected: leaves out four damaged bytes across the edge of the CRC field, for which HeaderDamage.AcceptanceDependsOnlyOnTheError has the exact condition.
- LittleEndian.ReadAt: joins shifted bytes by addition where the code uses a bitwise or; the shifted bytes never overlap. Offsets are unbounded, so the sum of offset and width does not wrap.
- LittleEndian.WriteAt: demands room for the bytes, as the unchecked functions of the source do.
- Breaker.HttpProvider.Retry: demands that the shift and the product of the backoff fit 64 signed bits and that the jitter is within the base delay; beyond that the code's behaviour is undefined.
- Breaker.HttpProvider.PerformRequest: is one request without interruption between its gate and its end; interleaved requests are the subject of Breaker.BreakerIsSound. Messages, headers and request ids are not modelled.
- Breaker.BreakerIsSound: takes the steady clock to be past its epoch, since the code uses the epoch to mean closed.
- Sse.SseStream.EnqueueUnlocked: an overflowing stream locks a mutex it already holds, which is undefined; the model lets it do nothing more.
- Sse.SseStream.SendTextEvent: stands for JSON events too, whose text comes from a JSON printer that is not modelled; the optional byte order mark of the WHATWG parser is not modelled, as no stream here starts with one.
- Metrics.MetricsRegistry.RenderPrometheus: reports the values of a scrape, not their text, labels or order; latencies are real numbers.
- Metrics.RequestObservation.DoComplete: is atomic, so token updates racing with it fall before or after.
- Counters other than the byte counts of the hashers and the chunk total are unbounded integers.
- Tracing.ResolveEnv: takes the environment as a map; names with a NUL inside are not modelled. The ids of a traceparent are not checked to be hexadecimal, as in the code.
- Listener ports, control commands, directory watching, configuration, routing, logging and redaction.
