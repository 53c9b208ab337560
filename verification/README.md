# LevelDB's database core and nanopb's codec, modelled in Dafny

Two vendored libraries carry the hard logic of this repository, and this project models both.

**LevelDB's `db_impl.cc`** is a concurrent storage protocol: a writer queue with group commit, a
memtable, an immutable memtable and their logs, one background thread that flushes and compacts,
deletion of obsolete files, and recovery after a crash. The model is a state machine
(`DbState.dfy`, `DbSteps.dfy`). A step is a stretch of code between two points where the mutex is
released, or one action taken with the mutex released: appending to the log, syncing it, inserting
one entry, building a table, writing the manifest record. Every result of I/O, of the parts that
are not modelled (`VersionSet`'s picks, the memory-usage test) and of timing is a parameter of its
step, so a run ranges over all of them; a crash may strike between any two steps, also during
recovery. `DbInvariant.dfy` says what every reachable state satisfies, the `DbProof*.dfy` modules
show that every step keeps it, and `DbSafety.dfy`, `DbTheorems.dfy`, `DbReads.dfy`, `DbRuns.dfy`,
`DbFiles.dfy`, `DbGroups.dfy`, `DbErrors.dfy`, `DbRoom.dfy` and `DbCalls.dfy` draw the conclusions,
most of them about whole runs. `DbImpl.dfy`
and `DbOpening.dfy` are the same code as it is written, on fields updated in place, each method
proved to do what its step does. The loop of a compaction and the files it writes are in
`Compaction.dfy` and `CompactionWork.dfy`.

The proofs carry a history along with the state: all entries ever logged, all ever acknowledged, all
moved to tables. `Seen` is what readers see, or would see once a closed database is open again; the
refinement is of this plain set of sequence-numbered entries.

**nanopb's `pb_encode.c`, `pb_decode.c` and `pb_common.c`** are a printer and a parser for the
Protocol Buffers wire format over a descriptor tree of statically allocated fields. What the bytes
of a message are is defined once as functions (`PbEncoding.dfy`, `PbDecoding.dfy`), about which the
round trip, merging and unknown-field results are proved (`PbRoundTrip.dfy`, `PbNormalForm.dfy`,
`PbMerging.dfy`, `PbRepetition.dfy`). `PbWireFormat.dfy` says in the encoding guide's own terms what
the bytes must be, `PbWriting.dfy`, `PbReading.dfy` and `PbStructs.dfy` what is written, what is
accepted and what a struct then holds. The code as it runs, with streams, substreams, the two sizing
passes, the circular iterator and the bitmap of required fields, is proved to compute exactly those
functions (`PbOutput.dfy`, `PbEncode.dfy`, `PbStreams.dfy`, `PbDecode.dfy`, `PbFieldIter.dfy`,
`PbRequiredFields.dfy`). The varint arithmetic is in `PbVarint.dfy`; its reference is the section
"Base 128 Varints" of the Protocol Buffers encoding guide. Sizes follow the build settings of this
repository: `pb_size_t` has 32 bits.

Every lemma carries `{:induction false}`: its proof is the one written down, with no induction
hypothesis added behind it.

What the model takes as given:

- `VersionSet` commits an edit atomically; a failed `LogAndApply` has either become durable or not,
  and the error is recorded. Its picks satisfy `DbSteps.PickAllowed`: inputs lie at a
  level and the next, and for a key that `IsBaseLevelForKey` accepts, the files outside the
  compaction hold no older entry of their own.
- A log is a durable list of records. `AddRecord` may fail after the record has become durable.
- Input keys of a compaction parse, except in `CompactionLoop`, which follows the code on keys that
  do not.
- Message descriptors have distinct tags, and recovery and read errors end in a crash step.

## Model

| member | source | states |
|---|---|---|
| `DbSafety.NextKeeps` | src/Pods/leveldb-library/db/db_impl.cc:535-1036 | every step of writers, background thread, readers, crash and recovery keeps the whole invariant |
| `DbSafety.RunKeeps` | src/Pods/leveldb-library/db/db_impl.cc:223-1256 | every state of every run, with any interleaving and any number of crashes, satisfies the invariant |
| `DbTheorems.StepRefines` | src/Pods/leveldb-library/db/db_impl.cc:1202-1236 | the database refines a versioned map: publishing adds the whole group, no other step changes what is visible, and the last sequence never falls |
| `DbTheorems.PublishMap` | src/Pods/leveldb-library/db/db_impl.cc:1202-1236 | SetLastSequence makes a group visible all at once, numbered right after everything before it; a failed group stays invisible |
| `DbTheorems.GetIsLookup` | src/Pods/leveldb-library/db/db_impl.cc:1100-1144 | memtable, then imm, then version answers exactly as the versioned map at the read's snapshot, whatever has been flushed, compacted or half-inserted since |
| `DbReads.AnswersStay` | src/Pods/leveldb-library/db/db_impl.cc:1112-1133 | no step changes what any one layer answers to a read in progress |
| `DbReads.InterleavedGet` | src/Pods/leveldb-library/db/db_impl.cc:1112-1133 | a Get that asks its three layers at three different times, with any steps in between, still answers as the map at its snapshot |
| `DbReads.ReadsOwnWrite` | src/Pods/leveldb-library/db/db_impl.cc:1100-1144 | read your writes: a Get begun without a snapshot after a write was acknowledged returns what was written, or nothing after a deletion, until a later group touches the key; compactions, flushes and crashes in between make no difference |
| `DbReads.SnapshotReadsOwnWrite` | src/Pods/leveldb-library/db/db_impl.cc:1105-1110 | a Get at a snapshot returns what was acknowledged before that snapshot was taken, whatever has been written since and whichever other snapshots were released |
| `DbRuns.SnapshotStable` | src/Pods/leveldb-library/db/db_impl.cc:1166-1174 | over any stretch of a run with the database open, a lookup at a published sequence gives the same answer in every state |
| `DbRuns.GetIsRepeatable` | src/Pods/leveldb-library/db/db_impl.cc:1100-1144 | a Get at any later moment returns what the map held at its snapshot in any earlier state |
| `DbRuns.AckedStaysVisible` | src/Pods/leveldb-library/db/db_impl.cc:314-368 | a write that returned success is visible in every later state of the run, across crashes, also crashes during recovery |
| `DbRuns.VisibleWasLogged` | src/Pods/leveldb-library/db/db_impl.cc:412-489 | whatever is visible, after recovery too, was appended to a log by an earlier step as part of its group |
| `DbRuns.RecoveryRestores` | src/Pods/leveldb-library/db/db_impl.cc:280-369 | from a crash to the end of recovery, through further crashes, the live entries are the committed version plus a replay of the logs from LogNumber on, and LastSequence covers them and all that was ever logged; every read from the floor on, so every read to come, is answered as the tables of the manifest and those logs answer it |
| `DbRuns.RecoveryStepSeen` | src/Pods/leveldb-library/db/db_impl.cc:1474-1515 | no step of closing, recovering or opening changes what the files hold durably, nor how the tables of the manifest and the kept logs, and in the end the open database, answer reads from the floor on |
| `DbRuns.DiskAnswers` | src/Pods/leveldb-library/db/db_impl.cc:314-368 | the tables the manifest names and the logs from LogNumber on answer every read from the largest smallest snapshot on as all committed entries and those logs would |
| `DbProofRecovery.FlushChunksOk` | src/Pods/leveldb-library/db/db_impl.cc:412-489 | however a log is cut into memtables, the tables written hold exactly its entries, under fresh numbers, and no other table changes |
| `DbProofRecovery.MaxSequenceCovers` | src/Pods/leveldb-library/db/db_impl.cc:435-439 | max_sequence is at least the sequence of every replayed entry, and no larger than before unless a record reaches it |
| `DbProofRecovery.OpenManifestKeeps` | src/Pods/leveldb-library/db/db_impl.cc:1488-1506 | the first manifest record after recovery keeps all that disk must satisfy, whether or not the open then succeeds |
| `DbFiles.NoFileMissing` | src/Pods/leveldb-library/db/db_impl.cc:329-350 | the manifest names no table that is not on disk, so recovery never reports missing files |
| `DbFiles.NoUsedFileMissing` | src/Pods/leveldb-library/db/db_impl.cc:223-277 | while open, every table of the version, of a reader, and of a compaction, the output being written included, exists, and so do the logs of both memtables |
| `DbFiles.StepKeepsFiles` | src/Pods/leveldb-library/db/db_impl.cc:223-277 | in every interleaving no step deletes or changes a table in use before and after it, in a version or under construction, nor a log from the durable LogNumber on |
| `DbFiles.GapIsOpen` | src/Pods/leveldb-library/db/db_impl.cc:494-513 | between leaving pending_outputs_ and joining a version, a flushed table would survive a collection if and only if an error stands |
| `DbFiles.GapIsClosed` | src/Pods/leveldb-library/db/db_impl.cc:535-566 | yet no step deletes or changes it there: it is still on its way, has arrived, or an error has been recorded |
| `DbFiles.RotationWaits` | src/Pods/leveldb-library/db/db_impl.cc:1336-1366 | the memtable rotates only while imm is empty; imm goes only when a flush holding all of it is installed, and then the log number becomes the current log's |
| `DbFiles.RetiredIsCommitted` | src/Pods/leveldb-library/db/db_impl.cc:550-562 | an acknowledged entry in a log older than LogNumber is in a committed table |
| `DbFiles.RetiredWhole` | src/Pods/leveldb-library/db/db_impl.cc:550-562 | all records of the log a flush retires are in committed tables if and only if no failed group left one there |
| `DbFiles.RetiredWholeUnlessFailed` | src/Pods/leveldb-library/db/db_impl.cc:550-562 | as long as no write has reported an error, a retired log is committed record by record |
| `DbFailedRecord.RecordIsRetired` | src/Pods/leveldb-library/db/db_impl.cc:1210-1226 | a concrete run in which a flush retires a log holding a record no committed table holds |
| `DbGroups.BatchIsInOrder` | src/Pods/leveldb-library/db/db_impl.cc:1283-1305 | a group's batch is its members' batches in queue order, each right behind the ones before it |
| `DbGroups.GroupFits` | src/Pods/leveldb-library/db/db_impl.cc:1270-1299 | a group is a non-empty prefix of the queue of at most 128 KB on top of its leader's batch, or 1 MB in all behind a batch over 128 KB; it ends only at the end of the queue, before a sync write its leader did not ask for, or before a batch that would exceed this |
| `DbProofWriters.BuildGroupOk` | src/Pods/leveldb-library/db/db_impl.cc:1260-1306 | a group is a non-empty prefix, its batch that of its members, and no sync write rides behind a leader that does not sync |
| `DbGroups.GroupsAreDisjoint` | src/Pods/leveldb-library/db/db_impl.cc:1202-1236 | the sequence ranges of all finished groups are disjoint and increasing |
| `DbGroups.StatusIsGroups` | src/Pods/leveldb-library/db/db_impl.cc:1210-1255 | every member is told its own group's status; a sync write is told OK only if the leader synced, and a leader that did not ask for it does not sync |
| `DbGroups.PublishFinishes` | src/Pods/leveldb-library/db/db_impl.cc:1238-1255 | publishing answers exactly the group's members, each for the first time, and pops exactly them |
| `DbGroups.StepAnswers` | src/Pods/leveldb-library/db/db_impl.cc:1185-1255 | whichever step pops, a writer leaves the queue exactly when it is answered, and answers stand |
| `DbGroups.ResultsStand` | src/Pods/leveldb-library/db/db_impl.cc:1185-1255 | over a run, a result never changes once given and its writer is never queued again |
| `DbErrors.ErrorStopsWrites` | src/Pods/leveldb-library/db/db_impl.cc:1316-1319 | over a run: once an error is recorded no write succeeds while the database stays open, whether queued or still to come; only the group then under way may |
| `DbErrors.FailedSyncStopsWrites` | src/Pods/leveldb-library/db/db_impl.cc:1226-1234 | after a failed sync no write succeeds any more, its own group included |
| `DbErrors.FailuresAreRecorded` | src/Pods/leveldb-library/db/db_impl.cc:535-566 | a failed flush, manifest write or compaction, and a flush overtaken by a shutdown, leave the error recorded |
| `DbErrors.StoppedForGood` | src/Pods/leveldb-library/db/db_impl.cc:648-686 | after an error or a shutdown no further flush or compaction runs once the call under way has ended |
| `DbRoom.WhenWritesWait` | src/Pods/leveldb-library/db/db_impl.cc:1310-1347 | exactly when a write pauses once (8 level-0 files) and when it waits (no room or forced, with imm in the way or 12 level-0 files); none is logged into a full memtable |
| `DbRoom.WhenMemtableSwitches` | src/Pods/leveldb-library/db/db_impl.cc:1336-1366 | the memtable is switched only if full or forced, with imm free and fewer than 12 level-0 files |
| `DbRoom.ForcedWriteSwitches` | src/Pods/leveldb-library/db/db_impl.cc:1185-1200 | over a run: a write without a batch does not succeed before the memtable has been switched |
| `DbGroups.OneBackgroundCall` | src/Pods/leveldb-library/db/db_impl.cc:648-686 | at most one background call is outstanding, and exactly one whenever there is work, no error and no shutdown |
| `DbGroups.WaiterHasSignaller` | src/Pods/leveldb-library/db/db_impl.cc:1336-1347 | a writer waiting for room always has a background call outstanding that can go on without giving up |
| `DbGroups.CallEndsSignal` | src/Pods/leveldb-library/db/db_impl.cc:535-686 | whatever ends a call, frees imm or records an error leaves no writer waiting |
| `DbGroups.LeaderCanGoOn` | src/Pods/leveldb-library/db/db_impl.cc:1185-1255 | the front writer can always take its next step unless it waits for room |
| `DbGroups.BackgroundCanGoOn` | src/Pods/leveldb-library/db/db_impl.cc:669-767 | an outstanding background call can always take its next step, and a compaction one other than failing |
| `DbGroups.SnapshotsAboveSmallest` | src/Pods/leveldb-library/db/db_impl.cc:890-894 | every snapshot live while a compaction runs, and when it is installed, is at least its smallest snapshot |
| `DbProofManifest.CompactionTables` | src/Pods/leveldb-library/db/db_impl.cc:860-876 | replacing a compaction's inputs by its outputs leaves every read from the smallest snapshot on as it was |
| `DbProofManifest.AckedStays` | src/Pods/leveldb-library/db/db_impl.cc:550-556 | whatever edit is committed, every acknowledged entry is in committed tables or in a log the edit keeps |
| `DbCalls.CompactionIsInstalled` | src/Pods/leveldb-library/db/db_impl.cc:860-876 | a compaction takes its inputs, from its level and the next, out of the version and puts its outputs in at the next level; they hold the inputs' entries made compact, and no other file moves |
| `DbCalls.MoveIsInstalled` | src/Pods/leveldb-library/db/db_impl.cc:726-738 | a trivial move takes its file down one level and changes nothing else |
| `DbCalls.FlushIsInstalled` | src/Pods/leveldb-library/db/db_impl.cc:491-533 | a flush adds files that hold exactly imm's entries, no deeper than level 2, and changes no other |
| `DbCalls.JobStartsAtOldest` | src/Pods/leveldb-library/db/db_impl.cc:890-894 | a compaction's smallest snapshot is the oldest one alive, or the last sequence if there is none |
| `DbCalls.InstallLeavesNoGarbage` | src/Pods/leveldb-library/db/db_impl.cc:223-277 | after a flush or compaction without error, every table on disk belongs to the version, a reader or a compaction, and every log feeds a memtable |
| `DbCalls.OpeningLeavesNoGarbage` | src/Pods/leveldb-library/db/db_impl.cc:1474-1515 | so it is after opening, whatever was left on disk before |
| `DbCalls.FullMemtableGoesFirst` | src/Pods/leveldb-library/db/db_impl.cc:688-694 | over a run: a background call that finds imm does not end, and compacts nothing, before imm is flushed or an error recorded |
| `Compaction.CompactionPreservesLevels` | src/Pods/leveldb-library/db/db_impl.cc:938-960 | over shallower and deeper levels, every key reads the same at every snapshot from the smallest on after the drop rule is applied |
| `CompactionLoop.DropsIsDropped` | src/Pods/leveldb-library/db/db_impl.cc:931-962 | on sorted input the one-pass test against the last sequence seen decides the set-level drop rule |
| `CompactionLoop.LoopPreservesReads` | src/Pods/leveldb-library/db/db_impl.cc:896-998 | the stream the loop writes can stand in for its input in every read from the smallest snapshot on |
| `CompactionLoop.WrittenIsNeeded` | src/Pods/leveldb-library/db/db_impl.cc:938-960 | of sorted input the loop writes, among what every reader sees, no deletion of a key no deeper level holds, and of each key nothing but the newest entry |
| `CompactionLoop.KeepSetIsCompact` | src/Pods/leveldb-library/db/db_impl.cc:938-960 | the set-level rule keeps exactly what is newer than the smallest snapshot, and of each key the newest older entry unless it is such a deletion |
| `CompactionWork.CompactionState.DoCompactionWork` | src/Pods/leveldb-library/db/db_impl.cc:896-1010 | on success the files, concatenated, are the undropped entries in order, none is empty, each file's bounds are its first and last key, and their ranges increase, for any placement of boundaries; on sorted input they hold no stale entry and no needless deletion (`NothingStale`, `Compacted`, told from the entries alone) |
| `CompactionWork.CompactionState.OpenCompactionOutputFile` | src/Pods/leveldb-library/db/db_impl.cc:786-809 | a new output gets a fresh number, which is pending before the file exists |
| `CompactionWork.CompactionState.FinishCompactionOutputFile` | src/Pods/leveldb-library/db/db_impl.cc:811-858 | finishing a file keeps all entries written so far |
| `CompactionWork.ClassifyItem` | src/Pods/leveldb-library/db/db_impl.cc:929-963 | the per-entry code decides drop and the next state of the key run as specified, also for keys that do not parse |
| `CompactionWork.OutputsPartition` | src/Pods/leveldb-library/db/db_impl.cc:964-1010 | the files together hold exactly the entries the set-level rule keeps, in strictly increasing ranges |
| `CompactionWork.FilesAreChunks` | src/Pods/leveldb-library/db/db_impl.cc:964-1010 | each finished file takes a non-empty part of what is still to write, and together they leave nothing |
| `DbImpl.DBImpl.BuildBatchGroup` | src/Pods/leveldb-library/db/db_impl.cc:1260-1306 | the loop stops at the specified group and returns its operations in order |
| `DbImpl.DBImpl.FinishWriters` | src/Pods/leveldb-library/db/db_impl.cc:1238-1250 | the pop loop ends, and answers and removes exactly the first count writers |
| `DbImpl.DBImpl.MakeRoomForWrite` | src/Pods/leveldb-library/db/db_impl.cc:1310-1370 | one pass of the loop, with the branch order of the code, is the step of the model |
| `DbImpl.DBImpl.InsertInto` | src/Pods/leveldb-library/db/db_impl.cc:1222-1226 | inserting adds the whole batch under consecutive sequence numbers to the current memtable alone |
| `DbImpl.DBImpl.FinishWrite` | src/Pods/leveldb-library/db/db_impl.cc:1226-1255 | the end of Write is the publishing step, with the error recorded after a failed sync |
| `DbImpl.DBImpl.DeleteObsoleteFiles` | src/Pods/leveldb-library/db/db_impl.cc:223-277 | the loop over the directory deletes exactly the files the step deletes |
| `DbImpl.DBImpl.CleanupCompaction` | src/Pods/leveldb-library/db/db_impl.cc:769-784 | exactly the compaction's outputs leave pending_outputs_ |
| `DbOpening.Opening.ReplayLog` | src/Pods/leveldb-library/db/db_impl.cc:412-448 | the replay loop cuts the log into flushed chunks and a last memtable, losing and repeating nothing |
| `DbOpening.Opening.RecoverLogFile` | src/Pods/leveldb-library/db/db_impl.cc:371-489 | a log is either flushed whole or, if last and never flushed, taken over with all its entries in the memtable |
| `DbOpening.Opening.Recover` | src/Pods/leveldb-library/db/db_impl.cc:351-366 | after all logs are replayed in order, the durable contents are unchanged and the last sequence covers the kept logs |
| `Varint.EncodeIsReference` | src/Pods/nanopb/pb_encode.c:599-619 | the bytes written are a varint for the value, whatever follows |
| `Varint.EncodeIsMinimal` | src/Pods/nanopb/pb_encode.c:599-619 | no varint for the value is shorter |
| `Varint.EncodeFits` | src/Pods/nanopb/pb_encode.c:599-619 | every 64-bit value fits the ten-byte buffer |
| `Varint.ReadIsReference` | src/Pods/nanopb/pb_decode.c:255-276 | the 64-bit decoder accepts exactly the varints of up to ten bytes and returns their value modulo 2^64 |
| `Varint.ReadEncode` | src/Pods/nanopb/pb_decode.c:255-276 | decoding inverts encoding for every 64-bit value |
| `Varint.Read32Encode` | src/Pods/nanopb/pb_decode.c:187-247 | the 32-bit decoder reads back every 32-bit value |
| `Varint.Read32IsReference` | src/Pods/nanopb/pb_decode.c:187-247 | of the varints of up to five bytes it accepts exactly those of 32-bit values |
| `Varint.Read32Negative` | src/Pods/nanopb/pb_decode.c:216-232 | it returns the low 32 bits of every negative 32-bit value sign-extended to ten bytes |
| `Varint.ZigZagInverse` | src/Pods/nanopb/pb_decode.c:1269-1281 | svarint decoding inverts encoding on all int64, and encoding decoding on all uint64 |
| `Streams.IStream.Read` | src/Pods/nanopb/pb_decode.c:102-139 | a read takes exactly the next count bytes or nothing; the end of the stream never moves |
| `Streams.IStream.DecodeVarint` | src/Pods/nanopb/pb_decode.c:255-276 | the loop reads what the specified 64-bit decoder reads |
| `Streams.IStream.DecodeVarint32` | src/Pods/nanopb/pb_decode.c:187-247 | the loop reads what the specified 32-bit decoder reads, on over-long input too |
| `FieldIter.Iter.Next` | src/Pods/nanopb/pb_common.c:20-76 | one step leaves data address, size address and required index as a straight walk would, across unions, arrays and the wrap |
| `FieldIter.FieldsAreApart` | src/Pods/nanopb/pb_common.c:20-76 | the addresses the iterator computes give fields disjoint storage, except that members of a union share theirs |
| `FieldIter.Iter.FindTag` | src/Pods/nanopb/pb_common.c:78-95 | from any position the search ends within a lap, succeeds if and only if a field other than an extension has the tag, and leaves the iterator as a straight walk would |
| `FieldIter.Iter.CountRequired` | src/Pods/nanopb/pb_decode.c:1030-1049 | wherever the iterator stands, running on counts all required fields |
| `RequiredFields.Mark` | src/Pods/nanopb/pb_decode.c:1012-1017 | marking sets the field's bit and no other |
| `RequiredFields.CheckRequired` | src/Pods/nanopb/pb_decode.c:1051-1070 | the mask test passes if and only if each of the first min(count, 64) required fields was marked |
| `RequiredFields.RecordsDecide` | src/Pods/nanopb/pb_decode.c:1030-1070 | so it decides exactly whether every covered required field was seen in this call |
| `OutputStreams.OStream.Write` | src/Pods/nanopb/pb_encode.c:103-121 | a write succeeds if and only if it fits, and then counts and appends exactly its bytes |
| `OutputStreams.OStream.EncodeVarint` | src/Pods/nanopb/pb_encode.c:599-619 | the group loop and the final byte make the specified varint |
| `OutputStreams.TakeGroups` | src/Pods/nanopb/pb_encode.c:610-616 | the loop never leaves its ten bytes |
| `Encode.PbEncode` | src/Pods/nanopb/pb_encode.c:519-541 | encoding succeeds if and only if no field is in error and the buffer, if any, has room; it counts and writes exactly the specified bytes |
| `Encode.GetEncodedSize` | src/Pods/nanopb/pb_encode.c:558-567 | sizing succeeds exactly when encoding has no error, and gives the length a buffer encode writes |
| `Encode.EncodeSubmessage` | src/Pods/nanopb/pb_encode.c:708-756 | both passes over a submessage write the same size, so "submsg size changed" cannot happen |
| `Encode.PackedSize` | src/Pods/nanopb/pb_encode.c:166-190 | the size announced for a packed array is the size of its data |
| `Encode.EncArray` | src/Pods/nanopb/pb_encode.c:144-233 | arrays are packed or tagged item by item as specified, and too long ones refused |
| `WireFormat.RecordsAreWireFormat` | src/Pods/nanopb/pb_encode.c:666-696 | every record has the wire type the guide gives its field's type (0, 1, 2 or 5) and the payload the guide gives the value |
| `WireFormat.PackedIsWireFormat` | src/Pods/nanopb/pb_encode.c:144-233 | a packed array is one length-prefixed record of wire type 2 |
| `WireFormat.WrittenCanBeSkipped` | src/Pods/nanopb/pb_encode.c:666-696 | a reader that does not know the field skips what was written for it as one unknown record |
| `WireFormat.PackedCanBeSkipped` | src/Pods/nanopb/pb_encode.c:144-233 | the same for a packed array |
| `WireFormat.StringEnds` | src/Pods/nanopb/pb_encode.c:864-888 | a string is written up to its first zero byte, whatever follows in its array |
| `Writing.WrittenIfWritable` | src/Pods/nanopb/pb_encode.c:519-541 | encoding has no error if and only if every field that is present holds a value in range, bytes that fit, and no more items than entries, at any depth |
| `Writing.MessagesAreWireFormat` | src/Pods/nanopb/pb_encode.c:519-541 | an encoded message is the well-formed records of its fields in the order of the descriptor, and nothing else |
| `Decode.PbDecodeNoinit` | src/Pods/nanopb/pb_decode.c:925-1073 | the loop with iterator, bitmap and streams yields exactly the specified message, rest and verdict, and always ends |
| `Decode.PbDecode` | src/Pods/nanopb/pb_decode.c:1075-1087 | the same from the defaults |
| `Decode.PbDecodeDelimitedNoinit` | src/Pods/nanopb/pb_decode.c:1089-1102 | a delimited decode yields the specified message, and on success the parent has advanced by the prefix and the bytes it announces |
| `Decode.PbDecodeDelimited` | src/Pods/nanopb/pb_decode.c:1104-1117 | the same from the defaults |
| `Decode.MakeSubstream` | src/Pods/nanopb/pb_decode.c:372-385 | the substream gets the announced bytes and the parent keeps those behind them |
| `Decode.CloseSubstream` | src/Pods/nanopb/pb_decode.c:387-400 | closing puts the parent where the substream ends, whatever was left unread |
| `Decode.DecSubmessage` | src/Pods/nanopb/pb_decode.c:1503-1525 | a nested message is decoded from strictly fewer bytes, and the parent ends right behind it |
| `Decode.DecPackedItems` | src/Pods/nanopb/pb_decode.c:420-447 | a packed array yields its items to the end of its bytes, or fails when there is no room |
| `Reading.PackedAppends` | src/Pods/nanopb/pb_decode.c:420-448 | a packed record adds its items behind those the array holds, and fails if they do not all fit |
| `Reading.OneAppends` | src/Pods/nanopb/pb_decode.c:449-461 | an unpacked record adds one item, also in a field the encoder would pack, and fails if the array is full |
| `Reading.VarintIsTaken` | src/Pods/nanopb/pb_decode.c:1329-1412 | an integer field accepts a varint if and only if the number it means is in the field's range, and stores that number |
| `Reading.BoolIsTaken` | src/Pods/nanopb/pb_decode.c:1318-1327 | a bool is false for zero and true for any other 32-bit varint |
| `Reading.FixedIsTaken` | src/Pods/nanopb/pb_decode.c:1283-1316 | fixed fields take four or eight bytes, least significant first |
| `Reading.BlobIsTaken` | src/Pods/nanopb/pb_decode.c:1431-1549 | bytes and strings are accepted if and only if they fit their array with size field or terminator, fixed bytes if and only if they have its length or none |
| `Structs.DecodeFits` | src/Pods/nanopb/pb_decode.c:925-1073 | a successful decode into a struct that fits leaves one that fits: no number outside its type, no array beyond its entries |
| `Structs.DecodedFits` | src/Pods/nanopb/pb_decode.c:1075-1087 | so does a decode from the defaults |
| `Structs.EmptyGivesDefaults` | src/Pods/nanopb/pb_decode.c:836-919 | the empty input is accepted if and only if none of the first 64 required fields exists, and leaves every field at the default it declares |
| `Merging.DecodingMerges` | src/Pods/nanopb/pb_decode.c:925-1073 | decoding a and then b into the same struct is decoding their concatenation |
| `Merging.ZeroEnds` | src/Pods/nanopb/pb_decode.c:298-320 | a zero byte at a field boundary ends the message; what follows is left unread |
| `Merging.UnknownIsTransparent` | src/Pods/nanopb/pb_decode.c:943-986 | an unknown record at a field boundary changes neither success, struct nor rest |
| `Repetition.SingularMerges` | src/Pods/nanopb/pb_decode.c:1503-1525 | two occurrences of a singular submessage field decode like one with their payloads joined, if both decode |
| `Repetition.SingularMergesIff` | src/Pods/nanopb/pb_decode.c:1051-1070 | they do so whatever the second holds if and only if the submessage has no required fields the bitmap covers |
| `Repetition.OneofStartsOver` | src/Pods/nanopb/pb_decode.c:466-476 | a second occurrence of a oneof submessage decodes as if the first had not been there |
| `Repetition.OneofMergesIff` | src/Pods/nanopb/pb_decode.c:466-476 | the two decode like one with their payloads joined, whatever the second holds, if and only if the first left all defaults and no required fields are covered |
| `Repetition.SecondClearsFirst` | src/Pods/nanopb/pb_decode.c:466-476 | an input whose second record clears what the first set |
| `Repetition.LastOneWins` | src/Pods/nanopb/pb_decode.c:406-419 | of two records for a singular scalar field, or for members of one union, the last alone counts |
| `WireFormat.PayloadIsSkipped` | src/Pods/nanopb/pb_decode.c:321-334 | a payload of wire type 0, 1, 2 or 5 is skipped as a whole: a varint, eight bytes, a length and its bytes, four bytes |
| `WireFormat.NoOtherWireType` | src/Pods/nanopb/pb_decode.c:321-334 | a record of any other wire type is an error |
| `WireFormat.UndeclaredIsUnknown` | src/Pods/nanopb/pb_decode.c:278-331 | every well-formed record of wire type 0, 1, 2 or 5 with an undeclared tag is an unknown record |
| `RoundTrip.MessageRoundTrip` | src/Pods/nanopb/pb_decode.c:1075-1087 | for every well-formed descriptor tree and conforming message, encoding succeeds and decoding gives the message's normal form, leaving nothing |
| `RoundTrip.ValueRoundTrip` | src/Pods/nanopb/pb_encode.c:760-901 | the same for a value of every field type |
| `RoundTrip.PackedRoundTrip` | src/Pods/nanopb/pb_decode.c:420-447 | a packed array comes back item by item, behind whatever the array held |
| `NormalForm.NormalIs` | src/Pods/nanopb/pb_decode.c:836-919 | the normal form keeps every slot; only an off has_ flag hides a value |
| `NormalForm.ZeroIsDefault` | src/Pods/nanopb/pb_encode.c:237-328 | a proto3 field is left out only when decoding would put the same value there |
| `NormalForm.ZeroIsLeftOut` | src/Pods/nanopb/pb_encode.c:237-328 | a proto3 field writes no bytes if and only if it is zero, empty or, for a submessage, all absent |
| `NormalForm.CanonicalRoundTrip` | src/Pods/nanopb/pb_decode.c:1075-1087 | a message whose absent slots hold their defaults comes back unchanged |
| `NormalForm.DelimitedMessageRoundTrip` | src/Pods/nanopb/pb_encode.c:543-546 | the same behind a length prefix, whatever follows |
| `NormalForm.WellFormedIsDecodable` | src/Pods/nanopb/pb_decode.c:925-1073 | well-formed descriptors meet the decoder's preconditions |
| `NormalForm.ConformingIsSized` | src/Pods/nanopb/pb_encode.c:708-756 | conforming messages meet the encoder's |
| `NormalForm.StringRoundTrip` | src/Pods/nanopb/pb_decode.c:1468-1501 | a string comes back if and only if its terminator lies inside its array |
| `NormalForm.UnterminatedString` | src/Pods/nanopb/pb_encode.c:864-888 | the smallest string that is written but cannot be read back |

## Findings

- Log retirement. Committing a flush retires the old log, and one would like all its records to be
  in committed tables then. They need not be: when `AddRecord` reports an error after the record
  has reached the disk, the group's entries are never inserted, yet the record is in the log
  (`db_impl.cc:1210-1226`). `DbFailedRecord.RecordIsRetired` is such a run, from an empty directory
  to the flush. `DbFiles.RetiredWhole` gives the exact condition: no failed group has a record in
  that log. `DbFiles.RetiredWholeUnlessFailed` is the half a caller can check. No acknowledged write
  is concerned (`DbFiles.RetiredIsCommitted`). Until its log is retired such an entry may become
  visible after a crash, with the sequence number it was given (`DbRuns.RecoveryRestores`).
- Strings. `pb_enc_string` reads up to `data_size` bytes, `pb_dec_string` insists on room for the
  terminator (`pb_encode.c:864-888`, `pb_decode.c:1468-1501`). A string that fills its array is
  written and then refused: `NormalForm.UnterminatedString` with one byte in an array of one.
  `NormalForm.StringRoundTrip` gives the exact condition.
- A submessage field that occurs twice. By the encoding guide, section "Last One Wins", two records
  with payloads a and b stand for one with payload a + b. A oneof member starts from its defaults
  each time instead (`pb_decode.c:466-476`): `Repetition.SecondClearsFirst` gives an input, and
  `Repetition.OneofMergesIff` the exact condition, for every descriptor and every a. Singular
  fields merge (`Repetition.SingularMerges`), but each occurrence is checked for its required
  fields by itself, so that the rule holds whatever follows only if there are none
  (`Repetition.SingularMergesIff`).

## Left out

- Manual compaction (`TEST_CompactRange`, the manual branches of `BackgroundCompaction`), statistics, properties, option clipping and info logging.
- Levels: a compaction's inputs are any files at a level and the next for which `PickAllowed` holds; `PickCompaction`, `AddBoundaryInputs` and `PickLevelForMemTableOutput` are not part of this model.
- Corrupt logs and `MaybeIgnoreError`: logs are readable. A failed read during recovery is a crash step.
- The one-millisecond delay in `MakeRoomForWrite` is no step of its own; the writer only loses its allowance for it.
- File creation and registration of a new log or output are one step; I/O happens inside the step that decides on it.
- A memtable's skip list, a table's blocks and the merging iterators: a memtable and a table are sets of entries, an input of a compaction a sorted sequence.
- Keys are modelled as their places in comparator order; values are strings.
- DbImpl.DBImpl: the methods that flush and compact between two releases of the mutex appear only as steps, except where they loop; log appends, syncs and manifest writes are steps alone.
- CompactionWork.CompactionState.DoCompactionWork: the nested CompactMemTable is the step JobFlushStep and not part of this loop.
- Fixed-count arrays, extensions, callbacks and pointer fields of nanopb: descriptors are required to have none (`Descriptor.Supported`).
- A message type without fields takes a record with tag 0 for its end mark and reads a varint, as `Decoding.PassOver` says; where `pb_dec_bool` then stores the value is not modelled.
- Structs are values: a field decoded in place, and what a failed decode leaves behind in the struct or buffer, are not modelled. Slots stand for addresses, which `FieldIter` computes.
- `size_t` does not wrap: sums of lengths are unbounded, and `Encoding.SizedFields` asks that each length be below 2^64.
- Wire types of known fields are ignored, as in the code, except for packed arrays; `pb_decode_nullterminated`, `pb_encode_nullterminated` and custom streams.
