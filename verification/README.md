# Log housekeeping, verified

A Dafny model of how the fleet manager moves guest log files into Loki and then deletes them, with proofs of what it
is for: **a file is deleted only when it decodes to its end and every byte of it can be read back from a push the log
store accepted**, whatever crashes, lost replies, rotations, appends, renames, inode reuse and replacements happened in
between; and **once the files stop changing, finitely many runs deliver and acknowledge all of them**. Three
self-contained algorithms of the same program are modelled beside it: disk-usage attribution, the logrotate scanner
and rewriter, and the `hosts.ini` editor.

`dafny verify dfyconfig.toml` verifies everything.

## How it is laid out

| part | modules |
|---|---|
| From bytes to entries | `Utf8`, `Base64`, `Json`, `LogEntry`, `Fragments` (specification), `StreamReader` (the buffers and loops), `SnapshotPool` |
| Identity and the store | `Sources`, `Tables` (transactions as functions), `Checkpoint` (the store as a class) |
| The invariant | `Delivery` (what the log holds), `Coverage` (what each row may claim), `Tidy` (what may be in the log twice) |
| Planning a run | `Matching` (which row owns a file), `Probing` (one listing, asked for every file), `Planner` (what one file needs), `Planning` (all files) |
| Import runs | `Batching`, `Import`, `Importer`, `LiveInput`, `Pending`, `Capture`, `Run` |
| Deletion | `GuestFiles` (the node helper), `Retention` |
| Whole histories | `Campaign` (safety over any events), `Repeats` (what is ever delivered twice), `Clashing` (two files under one id); `KnownFiles`, `Completion`, `Arrivals`, `InitialDay` (finitely many runs finish) |
| Beside it | `DiskUsage`, `Logrotate`, `ManagedPolicy`, `Inventory`, `Strings` |

The code that updates state is modelled as classes and methods with loops (`StreamReader.LineBuffer`,
`Checkpoint.CheckpointStore`, `Import.ImportState`, `GuestFiles.Node`, `Retention.RetentionRun`,
`SnapshotPool.RemoteSnapshotPool`), each proved against functions; the properties are then proved of those functions.

Loki is a ghost sequence of accepted bodies. A push may be taken several times, and may be taken although it failed.
A crash is a return with `alive == false` at any point between two transactions; every method keeps the invariant in
that case too. `Coverage.Inv` is the invariant of every reachable state:

- every decoded byte below a source's stored offset is in accepted bodies (`ProgressOk`);
- the completed prefix of whatever the stored digest stands for decodes to its end and was delivered in full
  (`CompletionOk`);
- a row has exactly the frozen blob of its own id (`TiesOk`);
- a pending batch is exactly the next stretch of its source (`BatchOk`).

Beside it `Tidy.TidyLog` says, of every row since it was last started, that no byte of its source is in two different
entries of the log and that what lies at or beyond its offset comes from the pending batch. When a row was last started
is a ghost record of the log store, `born`; planning is the only thing that writes it.

`Campaign.Campaign` is the main safety result. Its events are maintenance runs, absences, purges, and the guest turning
its files into anything at all, also while a retention run is under way. What an import reads is part of the event, so
nothing ties one run's files to the next one's. It leaves a history of moments; `Campaign.Follows` says how one moment
follows from another: which rows were started, and that intents and deletions changed only as the books of a retention
run say. `Repeats.UsedBeforeExactly` then tells, over every history from the empty store on, when content is delivered a
second time.

`Arrivals.ArchiveArrivals`, `InitialDay.ArchiveAll` and `Completion.Drain` are the main progress results: from any state
in which the probed files are known or new, from the initial capture, and from any state whose rows say only what is so.

## What is taken for granted

- SHA-256 is injective: a digest is modelled as the content it stands for, and a file's base id as the text it is made
  from.
- A decoder never takes back output when its input grows (`Delivery.Codec.Lawful`); gzip members and zstd frames are
  otherwise abstract, with a test of whether raw bytes are complete, uncorrupted frames.
- During one run a live file keeps the prefix it was probed with (`Run.ProbedSizes`); between runs anything may happen
  to it, except that a batch that has gone stale is not rebuilt, up to its own offset, from entries other than its own
  (`Pending.RebuildIsSafe`); it never is from an unchanged file or a blob (`Pending.UnchangedRebuildsSame`). A captured
  blob keeps its bytes.
- A file's compression is told by its name (`Sources.WireOk`), as the node reports it.
- No two files of one run are given the same source id (`Planning.DistinctIds`); a run in which two are is not followed
  further. `Clashing.ClashExactly` says exactly when that happens, and item 11 below what it would do.
- The node helper acts only on exact identities and digests, as `proxmox_fleet/executor.py:321-332` promises and
  `GuestFiles` models step by step; a file is not written between two looks of one request.
- The clock is not set back between two updates of one row.
- For finite completion alone (`Arrivals.ArrivalDay`, `KnownFiles.FrozenDay`, and `Completion.Usable`): no process dies,
  every push is accepted and every transfer succeeds; the files are as their rows last recorded them, or new, and decode
  to their end; paths and the inodes of new files are distinct, names short, and the budget is at least one MiB.
- Disk measurements that add up (`DiskUsage.Additive`) where conservation is stated.
- The words of a logrotate header come from an arbitrary tokenizer; the policy is written for headers that this
  tokenizer reads back, and for bodies whose script keywords stand alone in lower case (`ManagedPolicy.Writable`).

## What turned out not to hold

Each has an exact condition or a concrete counterexample in the model.

1. *Stale rebuild never gets stuck* does not hold for a file with a captured blob that has grown past it: the rebuild
   looks for the new bytes in the blob. `Pending.RebuildPending`: over an unchanged source it succeeds, unless the
   read breaks off, exactly if the batch was made from the content that is read again.
2. A verification is two transactions, size first, digest second. A crash between them, on a file that has grown,
   makes every later verification fail although nothing was changed (`LiveInput.CrashMakesFalseConflict`);
   verification of an unchanged file passes exactly when the two records agree (`LiveInput.UnchangedFilePasses`). An
   empty file is recorded with a verified size of zero, which reads as "not recorded"
   (`LiveInput.VerificationInSync`). No deletion is made unsafe by this.
3. *A complete file gets acknowledged* does not hold after every crash. A completion is three transactions, and a crash
   before the last can leave a complete row whose later plans read nothing and so never acknowledge it. After the second
   transaction that happens exactly if no completing batch had acknowledged the row and its file is as long as what was
   completed, or was frozen and is active (`Run.CrashStrandsExactly`, `Run.StrandedForEver`); after the first exactly if,
   besides, the row had a digest already (`Run.CrashAfterFirstStrands`). If the file is gone the row gets no plan at all.
   A settled run settles exactly the plans that are not so (`Run.SettlePlans`). If the row belongs to the initial
   manifest, it withholds every deletion of the guest for good (`Retention.UnacknowledgedWithholdsAll`).
4. *A pending intent exists before every destructive call* holds exactly for a path and inode that were not seen
   before or are still pending: the intent's id leaves out size, time and digest (`Retention.RecordPruneIntents`). For
   any other the call goes out, and if the answer is lost no later run looks for it (`Retention.SeenAgainExactly`).
5. The row checks do not make a disk report possible: they compare each child with its parent, never the children
   together. A report fails exactly if some directory is overcommitted (`DiskUsage.ContradictionExactly`,
   `DiskUsage.FilterStrict`), which rows that pass every check can be (`DiskUsage.ConsistentYetContradictory`).
6. The rotation writer and the scanner disagree about capitalised script keywords; then each repeated writing adds
   the managed lines again (`ManagedPolicy.SecondWritingExactly`).
7. A variable written to `hosts.ini` reads back exactly if its value has no `=` but perhaps as its last character
   (`Inventory.PairReadsBack`), and removing an added host restores the file exactly if the group had a section
   before (`Inventory.RemoveUndoesAdd`).
8. A rebuild does not prove the live prefix first. If the live file behind a stale batch was rewritten and still leads to
   the batch's offset, the rebuilt batch is in order exactly if it has the same entries again
   (`Pending.RebuiltInOrderExactly`), and its body covers the old content exactly if the rewritten bytes are the same
   (`Pending.RewrittenCoversExactly`).
9. *A file that no row matches gets an id of its own* does not hold: it falls back to the id made from its path, or to
   that of the frozen file with its inode, and a row may have that id. Exactly then (`Probing.TakenExactly`) the row
   starts over: its progress is wiped, its digest stays, its blob is attached again. A captured file that rotated to a
   timestamped name, and whose first name is used again, is such a case, whatever other rows there are
   (`Probing.ReusedNameTakesId`). Nothing becomes unsafe: the invariant survives the reset (`Planner.RecordedKeeps`,
   `Coverage.RestartedRow`), and no source falls back otherwise (`Planning.PlanSources`). But what the row had delivered
   is delivered a second time, as the new file's content (`Repeats.TakenDeliversAgain`). Over a whole history a row's id
   was in the log before the row was last started exactly if the run that started it found the log with entries of the id,
   and then it took the id like that, or an old row of it had been purged (`Repeats.UsedBeforeExactly`); otherwise every
   byte is in copies of one entry only (`Repeats.DeliveredOnce`).
10. `acknowledged` is not monotone: a batch that does not complete its source writes it back to false. Progress is
   measured by offset and coverage instead.
11. *No two files of a run share a row* does not hold. Two are planned over one row exactly if they fall back to one base
   id and both, or neither, replace the file of a row (`Clashing.ClashExactly`); for files without a row that is one
   profile, kind and origin (`Clashing.UnmatchedClashExactly`). A file that was frozen and then rotated before anything
   was planned, and the new file under its name, are such a pair (`Clashing.RotatedBeforePlanning`): both are read from
   the blob, and the new file is never read exactly if it is as long (`Clashing.NeverReadExactly`). Of two replacements
   the second's proof moves the digest while the completed size stays the first's: the row is truthful then exactly if the
   front of the second was archived (`Clashing.SecondProofExactly`), and otherwise vouches for a file nobody has read, of
   the first one's identity (`Clashing.BacksTheUnread`); the node finds no such file.

## Model

| member | source | states |
|---|---|---|
| `Utf8.ReplaceIsIdentityOnValid` | proxmox_fleet/housekeeping_stream.py:210-215 | Decoding with replacement changes nothing exactly when the bytes are well-formed UTF-8 (section 4 of RFC 3629), both ways; that is when the entry carries no base64 copy. |
| `Utf8.ReplaceLength` | proxmox_fleet/housekeeping_stream.py:1336-1362 | Replacement at most triples a length. |
| `Utf8.ComputeSafeEnd` | proxmox_fleet/housekeeping_stream.py:218-240 | The backing-up loop computes `SafeEnd`: a cut never splits a multi-byte sequence that the look-ahead shows. |
| `Utf8.SafeEndOnBoundary` | proxmox_fleet/housekeeping_stream.py:218-240 | In well-formed text every cut is on a character boundary and gives up at most three bytes, so a limit of at least four never backs up to nothing. |
| `Utf8.SafeEndPrefix` | proxmox_fleet/housekeeping_stream.py:218-240 | The cut depends only on bytes before it, so any longer look-ahead gives the same cut. |
| `Base64.EncodeShape` | proxmox_fleet/housekeeping_stream.py:1357-1361 | Encoded text has the padded length of section 4 of RFC 4648 and needs no JSON escaping. |
| `Base64.RoundTrip` | proxmox_fleet/housekeeping_stream.py:1357-1361 | Decoding the `raw_base64` field gives back exactly the encoded bytes. |
| `Json.UnescapeEscape` | proxmox_fleet/housekeeping_stream.py:205-207 | Escaping (section 7 of RFC 8259) loses nothing: unescaping gives the text back. |
| `Json.EscapeBounds` | proxmox_fleet/housekeeping_stream.py:205-207 | Escaped text holds no control character and is at most six times as long. |
| `Json.EncodeValueLength` | proxmox_fleet/housekeeping_import.py:280-285 | A line without control characters at most doubles when it is escaped again into a pair. |
| `Json.BodyLength` | proxmox_fleet/housekeeping_import.py:288-289 | Adding one value lengthens the body by the value, and by a comma unless it is the first. |
| `LogEntry.PayloadRecovered` | proxmox_fleet/housekeeping_stream.py:1336-1362 | The payload can be read back from every entry, well-formed text or not. |
| `LogEntry.SmallMetadataFits` | proxmox_fleet/housekeeping_stream.py:1414-1449 | With at most ten KiB of metadata every payload within the raw ceiling fits the entry ceiling, so the shrink loop does nothing. |
| `LogEntry.MetadataLength` | proxmox_fleet/housekeeping_stream.py:1336-1362 | The metadata of an entry is at most six times the file name and source id plus 220 bytes. |
| `LogEntry.ValueFitsBody` | proxmox_fleet/housekeeping_import.py:280-285 | An entry within its ceiling, escaped a second time, always fits one push body. |
| `Fragments.ChosenLength` | proxmox_fleet/housekeeping_stream.py:1414-1449 | The shrink loop: the chosen length is positive, no longer than the payload, and its entry is within `MAX_ENTRY_BYTES`. |
| `Fragments.StuckOnlyOnMetadata` | proxmox_fleet/housekeeping_stream.py:1414-1449 | The run raises only when an entry with at most one payload byte is already over the ceiling. |
| `Fragments.StepContent` | proxmox_fleet/housekeeping_stream.py:1406-1484 | One fragment stands for exactly the bytes between its own offset and the next, whatever was pushed back. |
| `Fragments.Lossless` | proxmox_fleet/housekeeping_stream.py:1365-1484 | Payloads and the newlines they terminate, put together, are the decoded stream from the start offset on: all of it, or a prefix when the run raised; each fragment starts where the one before it ended, at strictly increasing offsets. |
| `Fragments.ResumeAnywhere` | proxmox_fleet/housekeeping_stream.py:1365-1484 | A run restarted at any yielded cursor yields exactly the remaining fragments of the uninterrupted run and ends the same way, also across shrunk payloads. |
| `Fragments.FragmentAt` | proxmox_fleet/housekeeping_stream.py:1406-1484 | The k-th fragment holds exactly its stretch of the stream, carries its own cursor and the run's source id, and encodes within the ceiling. |
| `Fragments.OffsetsIncrease` | proxmox_fleet/housekeeping_stream.py:1450-1484 | Offsets strictly increase along a run. |
| `Fragments.FragmentSize` | proxmox_fleet/housekeeping_stream.py:1407-1484 | A fragment takes at most its limit and one newline from the stream. |
| `Fragments.EndsAtEnd` | proxmox_fleet/housekeeping_stream.py:1406-1484 | A run that does not raise ends exactly where the stream ends. |
| `Fragments.ChunkOnBoundary` | proxmox_fleet/housekeeping_stream.py:1314-1333 | With room for four bytes a chunk of well-formed text is well formed, and so is what follows it. |
| `Fragments.WholeChunkFits` | proxmox_fleet/housekeeping_stream.py:1414-1449 | With short names the whole chunk is emitted. |
| `Fragments.TextIsNeverCut` | proxmox_fleet/housekeeping_stream.py:1365-1484 | Over well-formed text with short names the run never raises and no fragment cuts a character or needs the base64 copy. |
| `Fragments.NeverStuck` | proxmox_fleet/housekeeping_stream.py:1414-1449 | With short names a run never raises, whatever the bytes. |
| `Fragments.CursorsOk` | proxmox_fleet/housekeeping_stream.py:1450-1484 | Line and fragment numbers never run ahead of the offset along a run, so counters stay as small as the stream is long. |
| `StreamReader.RemoteLogReader.OpenFetch` | proxmox_fleet/housekeeping_stream.py:710-726 | Ranges are opened only within the window and are at most `MAX_FETCH_BYTES`. |
| `StreamReader.RemoteLogReader.Read` | proxmox_fleet/housekeeping_stream.py:771-833 | A read that does not fail serves exactly the next bytes of the window, and reaching the end of a recorded blob proves the served bytes are the recorded ones. |
| `StreamReader.DecodedLogReader.PullFrame` | proxmox_fleet/housekeeping_stream.py:1181-1226 | One bounded decoding step changes nothing of what is still to be served and brings the end nearer. |
| `StreamReader.DecodedLogReader.Produce` | proxmox_fleet/housekeeping_stream.py:1228-1241 | Decoding ahead changes neither the position nor the remaining bytes. |
| `StreamReader.DecodedLogReader.Read` | proxmox_fleet/housekeeping_stream.py:1243-1257 | A read that does not fail serves exactly the next bytes of the decoded stream and advances the position by their number; a compressed stream only reaches its end when its frames are complete and uncorrupted. |
| `StreamReader.FindNewline` | proxmox_fleet/housekeeping_stream.py:1314-1333 | The search for a newline within the look-ahead. |
| `StreamReader.LookAhead` | proxmox_fleet/housekeeping_stream.py:1306-1333 | One byte more than the limit is enough look-ahead: more never changes the next chunk. |
| `StreamReader.LineBuffer.NextChunk` | proxmox_fleet/housekeeping_stream.py:1314-1333 | The next chunk depends on the remaining bytes alone, not on how far the look-ahead or a push-back got. |
| `StreamReader.ChooseLength` | proxmox_fleet/housekeeping_stream.py:1414-1449 | The in-place shrink loop computes `ChosenLength`, for any estimate of the length that would fit. |
| `StreamReader.NextFragment` | proxmox_fleet/housekeeping_stream.py:1406-1484 | One turn of the loop yields the specified step and pushes back exactly what it did not use. |
| `StreamReader.SkipTo` | proxmox_fleet/housekeeping_stream.py:1388-1403 | Resuming discards exactly the bytes before the offset, or reports a stream that is too short. |
| `StreamReader.IterLogFragments` | proxmox_fleet/housekeeping_stream.py:1365-1484 | The fragmenter over its buffers: a run that ends by itself yields exactly the specified fragments of the bytes from the resume offset on, of a stream that decodes to its end; one stopped by a failing read has yielded a prefix of them. |
| `SnapshotPool.AdvertisesAll` | proxmox_fleet/housekeeping_stream.py:949-957 | Every poolable input is advertised exactly once and nothing else is. |
| `SnapshotPool.RemoteSnapshotPool.constructor` | proxmox_fleet/housekeeping_stream.py:931-962 | Hints are advertised in plan order, each range where it is first offered; nothing is fetched. |
| `SnapshotPool.BatchEnd` | proxmox_fleet/housekeeping_stream.py:1050-1070 | A batch is a run of consecutive hints within 64 ranges and `MAX_FETCH_BYTES`, and within the manifest bound unless it is a single hint; it stops only where the next hint would break a bound. |
| `SnapshotPool.RequestMore` | proxmox_fleet/housekeeping_stream.py:1050-1070 | A batch that starts at or after the cursor overlaps none that was requested before. |
| `SnapshotPool.RequestedOnce` | proxmox_fleet/housekeeping_stream.py:994-1015 | No advertised range is in two batches, so the pool fetches each at most once. |
| `SnapshotPool.RemoteSnapshotPool.LoadBatch` | proxmox_fleet/housekeeping_stream.py:1050-1099 | A load serves every range of its batch, the one that asked for it first; it is made only while no handle is open. |
| `SnapshotPool.RemoteSnapshotPool.Take` | proxmox_fleet/housekeeping_stream.py:994-1015 | A served request gets its own range out of the kept batch; the exact cases of a miss; while a handle is open the kept batch stays. |
| `SnapshotPool.RemoteSnapshotPool.Serve` | proxmox_fleet/housekeeping_stream.py:1017-1030 | A served range is handed out once and counted as an open handle. |
| `SnapshotPool.RemoteSnapshotPool.Release` | proxmox_fleet/housekeeping_stream.py:1032-1034 | Closing a handle counts one open handle less, never below none. |
| `Sources.RefreshedKeeps` | proxmox_fleet/housekeeping_sources.py:322-344 | Refreshes leave the provenance alone. |
| `Sources.FamilyNeverChanges` | proxmox_fleet/housekeeping_sources.py:219-274 | Along any admitted sequence of refreshes a source stays in the rotation family or task it was first recorded under, with its profile, kind, compression and inode, and never shrinks. |
| `Sources.TimestampedNameIsFinal` | proxmox_fleet/housekeeping_sources.py:219-274 | Once seen under a timestamped archive name, a source keeps that plain name for ever. |
| `Sources.DigitsNumber` | proxmox_fleet/housekeeping_sources.py:311-319 | The decimal generation suffix reads back as the number it was written for. |
| `Sources.ComputeNextGeneration` | proxmox_fleet/housekeeping_sources.py:311-319 | The scan for the highest generation in use. |
| `Sources.NextGenerationIsFresh` | proxmox_fleet/housekeeping_sources.py:311-319 | The id of a replacement is in none of the ids given, and its generation is above all of theirs. |
| `Sources.SamePlanCollision` | proxmox_fleet/housekeeping_import.py:1155-1215 | Freshness is per listing: two replacements given ids from one listing get the same id exactly when their base ids are equal. |
| `Sources.HexIsInjective` | proxmox_fleet/housekeeping_import.py:198-199 | The hexadecimal form of a digest determines it. |
| `Sources.BaseIdsDiffer` | proxmox_fleet/housekeeping_import.py:198-199 | Files with different profile, kind or path have different base ids. |
| `Sources.GenerationIsNoBase` | proxmox_fleet/housekeeping_sources.py:311-319 | The id of a later generation is the base id of no file. |
| `Matching.EnterRow` | proxmox_fleet/housekeeping_import.py:928-953 | Entering one more row keeps, for every key, a row that no other one with the key outranks. |
| `Matching.RecordIndexes` | proxmox_fleet/housekeeping_import.py:928-953 | The inode index (past inodes included) and the path index hold, for every key, the row of highest generation and then latest update. |
| `Matching.MatchKeepsIdentity` | proxmox_fleet/housekeeping_import.py:956-991 | A reused inode or path never lends a file the row of another task, profile, kind or rotation family. |
| `Matching.ExactMatchWins` | proxmox_fleet/housekeeping_import.py:956-991 | A row with the probe's own path and inode that no other row of the path outranks is the one matched. |
| `Probing.ListStore` | proxmox_fleet/housekeeping_import.py:1132-1157 | One listing of the rows serves the whole run: every row once, indexed by inode, path and id, and the manifest by inode. |
| `Probing.MatchFiles` | proxmox_fleet/housekeeping_import.py:1158-1213 | Every probed file is matched against that listing, in order; live or current files that continue no row and were not frozen are left out. |
| `Probing.MatchIsOk` | proxmox_fleet/housekeeping_import.py:1158-1213 | What matching hands to the planner is what planning relies on: a match in the same generation has its own row and blob, a file without a row the blob of its id with its compression, a replacement an id that is free. |
| `Probing.ReplacementIdIsFree` | proxmox_fleet/housekeeping_sources.py:311-319 | The id of a replacement is no row's id and no frozen file's. |
| `Probing.UnmatchedBlob` | proxmox_fleet/housekeeping_import.py:1166-1190 | The blob found for a file without a row was frozen with the compression the file has. |
| `Probing.LeftoverIsOk` | proxmox_fleet/housekeeping_import.py:1226-1246 | A frozen file the probe did not meet is planned from its manifest entry with its own blob, unless it is complete. |
| `Probing.TakenExactly` | proxmox_fleet/housekeeping_import.py:1159-1187 | A probed file takes over the id of an existing row exactly when no row matched it and the id it falls back to is in the store. |
| `Probing.ReusedNameTakesId` | proxmox_fleet/housekeeping_import.py:1159-1213 | The plain case, whatever other rows there are: a captured file rotated to a timestamped name and its first name used again. The new file wipes the old row's progress and keeps its digest; if it comes with the blob it is read from it; it is planned exactly if it has the frozen file's inode or is neither active nor under a current name. |
| `Probing.ReadsTheBlob` | proxmox_fleet/housekeeping_import.py:721-750 | Every file without a row whose id has a captured blob is read from that blob, in its size. |
| `Checkpoint.CheckpointStore.RecordSource` | proxmox_fleet/housekeeping_checkpoint.py:880-974 | Inserts or refreshes one row; without a reset its progress survives, and no other table changes. |
| `Checkpoint.CheckpointStore.SetSourceDigest` | proxmox_fleet/housekeeping_checkpoint.py:1023-1039 | Changes one row's digest and nothing else. |
| `Checkpoint.CheckpointStore.MarkSourceAcknowledged` | proxmox_fleet/housekeeping_checkpoint.py:1064-1087 | Changes one row's acknowledged mark and nothing else. |
| `Checkpoint.CheckpointStore.SavePendingBatch` | proxmox_fleet/housekeeping_checkpoint.py:1127-1170 | Stores the exact body before it is sent, or is refused while another batch is pending. |
| `Checkpoint.CheckpointStore.ReplacePendingBatch` | proxmox_fleet/housekeeping_checkpoint.py:1172-1207 | Replaces the pending batch of the same id only. |
| `Checkpoint.CheckpointStore.AcknowledgeBatch` | proxmox_fleet/housekeeping_checkpoint.py:1228-1299 | Applies every delta and drops the batch in one transaction, or changes nothing. |
| `Checkpoint.CheckpointStore.DiscardPendingBatch` | proxmox_fleet/housekeeping_checkpoint.py:1301-1323 | Drops the pending batch of that id only, and moves no progress. |
| `Checkpoint.CheckpointStore.BeginCapture` | proxmox_fleet/housekeeping_checkpoint.py:1327-1453 | Commits the frozen manifest; the same capture resumes, a different one is refused. |
| `Checkpoint.CheckpointStore.MarkBlobCaptured` | proxmox_fleet/housekeeping_checkpoint.py:1484-1525 | Records the digest of a declared blob of the pending capture. |
| `Checkpoint.CheckpointStore.ReleaseBlob` | proxmox_fleet/housekeeping_checkpoint.py:1579-1604 | Marks one captured blob released and changes nothing else. |
| `Checkpoint.CheckpointStore.RecordPruneIntent` | proxmox_fleet/housekeeping_checkpoint.py:1717-1764 | Stores a new intent as pending; a repeat keeps and returns the stored row in whatever state it is. |
| `Checkpoint.CheckpointStore.ResolvePruneIntent` | proxmox_fleet/housekeeping_checkpoint.py:1766-1792 | Settles one intent; it never becomes pending again. |
| `Checkpoint.CheckpointStore.MarkSourceAbsent` | proxmox_fleet/housekeeping_checkpoint.py:1833-1848 | Starts one row's tombstone clock, once. |
| `Checkpoint.CheckpointStore.PurgeTombstones` | proxmox_fleet/housekeeping_checkpoint.py:1875-1924 | Drops exactly the expired rows that are acknowledged and have no pending batch, unreleased blob or open intent. |
| `Delivery.FragmentsCover` | proxmox_fleet/housekeeping_import.py:1364-1416 | A body made from consecutive fragments carries every decoded byte of the stretch they span. |
| `Delivery.CoveredJoin` | proxmox_fleet/housekeeping_import.py:1364-1416 | An accepted body extends what was covered before it. |
| `Delivery.DeliveredPrefix` | proxmox_fleet/housekeeping_import.py:1312-1361 | A prefix of delivered content was delivered. |
| `Coverage.BatchCovers` | proxmox_fleet/housekeeping_checkpoint.py:1127-1170 | A pending batch covers exactly the stretch from the stored decoded offset to the batch's own, which is further on and within the content. |
| `Coverage.AcceptBody` | proxmox_fleet/housekeeping_import.py:587-648 | Accepting a body, once or several times, keeps every row in order. |
| `Coverage.AcknowledgeKeeps` | proxmox_fleet/housekeeping_checkpoint.py:1228-1299 | Acknowledging an accepted batch keeps the invariant: progress moves over exactly what the body carries. |
| `Coverage.VerifiedRow` | proxmox_fleet/housekeeping_import.py:1256-1309 | Moving a digest on to the file as it now is keeps the row truthful when the old content is at the front of the file and the new size was recorded first. |
| `Coverage.VerifiedSizeRow` | proxmox_fleet/housekeeping_import.py:1256-1309 | Recording how far a file was verified keeps the row truthful, and what it counts in. |
| `Coverage.RestartedRow` | proxmox_fleet/housekeeping_import.py:801-824 | A row that starts over keeps its old digest and blob and is truthful all the same: it claims nothing. |
| `Coverage.CompletedRow` | proxmox_fleet/housekeeping_import.py:1529-1561 | A row may be marked complete at a size when the content of that size decodes to its end and was delivered in full. |
| `Coverage.DigestedRow` | proxmox_fleet/housekeeping_checkpoint.py:1023-1039 | Recording the digest of the content a row already counts its progress in keeps it truthful. |
| `Coverage.DigestOfCompletedSizeIsDelivered` | proxmox_fleet/housekeeping_sources.py:277-301 | Whenever the content behind the stored digest has the completed size, it decodes to its end and every decoded byte of it is in accepted bodies; a truncated or corrupt compressed file never gets there. |
| `Planner.RecordedKeeps` | proxmox_fleet/housekeeping_import.py:753-910 | Recording a probe, as a new row, a refreshed one, or over a row whose id is taken, keeps the invariant and touches no other row. |
| `Planner.PlanForOk` | proxmox_fleet/housekeeping_import.py:753-910 | The planner's choice of input is safe, for every match and also after a reset: live input is verified against the saved digest, frozen input is the row's own blob and the content the row counts in. |
| `Planner.RecordedRow` | proxmox_fleet/housekeeping_import.py:801-868 | Planning changes the planned row alone: a match in the same generation keeps provenance, digest, blob and progress; any other starts at nothing, and over a taken id the old digest stays. |
| `Planner.StillCompatible` | proxmox_fleet/housekeeping_sources.py:257-274 | A file is compatible with the row just refreshed from it. |
| `Planning.PlanSources` | proxmox_fleet/housekeeping_import.py:1132-1248 | Plans every probed file and what is left of the manifest; a crash anywhere keeps the invariant, one plan for each file under an id of its own; a source falls back exactly if its id is taken, and then to nothing; the rows afterwards are those before and those of the planned files, and exactly the files that continue no row start one. Files that would share an id are reported as a clash, exactly when they would. |
| `Planning.PlanFile` | proxmox_fleet/housekeeping_import.py:753-910 | Planning one more file keeps the plans already made, changes its own row only, notes the start of a row that does not continue, and keeps the row of a file already recorded as probed. |
| `Planning.PlanLeftovers` | proxmox_fleet/housekeeping_import.py:1226-1246 | Every frozen file has a plan afterwards or is complete. |
| `Planning.PlanTidies` | proxmox_fleet/housekeeping_import.py:1132-1248 | Planning keeps the log tidy: a row that continues keeps its progress, and one that starts, new or over an old one, counts from the log as it is then. |
| `Planning.AllPlannedFrom` | proxmox_fleet/housekeeping_import.py:1158-1246 | Whatever a run plans without continuing a row has an id in the store exactly if it takes the id of that row. |
| `Batching.QueueSize` | proxmox_fleet/housekeeping_import.py:1455-1487 | The running size is the length of the body the queue would make, value by value and comma by comma. |
| `Batching.OneValueFits` | proxmox_fleet/housekeeping_import.py:1455-1487 | One value and labels of sensible size always fit one body. |
| `Batching.FirstFits` | proxmox_fleet/housekeeping_import.py:1455-1487 | In a run that has pushed nothing, with a budget of one MiB, the first remaining fragment is within every cap. |
| `Batching.QueueReady` | proxmox_fleet/housekeeping_import.py:1364-1416 | A queue of consecutive fragments is the next stretch of its source; a completing one must reach the end of content that decodes to its end. |
| `Batching.AfterQueue` | proxmox_fleet/housekeeping_import.py:1364-1416 | Once the queue is acknowledged the row stands exactly at the fragment after it. |
| `Import.LogStore.PushBatch` | proxmox_fleet/housekeeping_import.py:587-648 | A push may be taken up to once per attempt, and may be taken although the reply was lost; accepted means it is in the log. |
| `Import.ImportState.NextTimestamp` | proxmox_fleet/housekeeping_import.py:678-680 | Timestamps strictly increase over the run. |
| `Import.ImportState.PushSaved` | proxmox_fleet/housekeeping_import.py:1364-1416 | Only an accepted body is acknowledged; otherwise the store is as it was, the batch still pending. |
| `Import.ImportState.FlushValues` | proxmox_fleet/housekeeping_import.py:1364-1416 | Save, push, acknowledge, with a crash anywhere: the invariant holds, the counters grow by exactly what was pushed, and the size error cannot happen for a body within its bound. |
| `Import.ImportState.MakeRoom` | proxmox_fleet/housekeeping_import.py:1455-1487 | The queue is pushed first exactly when one more value would break the body or budget cap; afterwards it fits or nothing is queued. |
| `Import.ImportState.Enqueue` | proxmox_fleet/housekeeping_import.py:1455-1489 | Queueing one fragment keeps the running size exact and every cap; the budget stops the run with everything queued pushed. |
| `Import.ImportState.CapIsReal` | proxmox_fleet/housekeeping_import.py:1455-1487 | A fresh run is never stopped by its cap before it pushed anything. |
| `Import.ImportState.PushFragments` | proxmox_fleet/housekeeping_import.py:1435-1489 | Over all fragments of a source: the internal bound error is unreachable and neither counter exceeds the budget. |
| `Import.ImportState.MarkComplete` | proxmox_fleet/housekeeping_import.py:1529-1561 | Three separate transactions; after a crash between any two the invariant holds, and all three leave exactly the completed row. |
| `Import.CompletionKeeps` | proxmox_fleet/housekeeping_import.py:1529-1561 | The invariant after each of the three transactions of a completion. |
| `Import.SaveKeeps` | proxmox_fleet/housekeeping_checkpoint.py:1127-1170 | Saving the next stretch as the pending batch keeps the invariant. |
| `Import.AcceptCopies` | proxmox_fleet/housekeeping_import.py:587-648 | However often and whether or not with an answer a body was taken, the invariant stands. |
| `Import.ImportState.ReadFragments` | proxmox_fleet/housekeeping_import.py:1419-1454 | What a read yields is the beginning of what remains of the row's content; it is finished only when that is all of it and the raw content decodes to its end, and it finishes when no transfer fails and the content can be read. |
| `Importer.FlushRest` | proxmox_fleet/housekeeping_import.py:1511-1522 | Pushing the rest of a source read to its end brings its row to the end of the content; a failed push claims nothing. |
| `Importer.Conclude` | proxmox_fleet/housekeeping_import.py:1519-1526 | Only a source whose end was reached is recorded complete; otherwise the budget is what stopped the run. |
| `Importer.StreamSource` | proxmox_fleet/housekeeping_import.py:1419-1526 | Importing one source: finished means complete and acknowledged for exactly this content, which decodes to its end; streaming batches, budget stops, broken reads and failed pushes complete nothing; a fresh run stopped by its budget has moved the source on. |
| `Importer.StreamRow` | proxmox_fleet/housekeeping_import.py:1435-1526 | The same for a source whose row exists; when nothing fails and the content can be read, it finishes or the budget stops it. |
| `Importer.EndIsEvidence` | proxmox_fleet/housekeeping_import.py:1511-1522 | A row at the end of the content it counts in has that content delivered in full, and it decodes to its end. |
| `Importer.AllPieces` | proxmox_fleet/housekeeping_import.py:1419-1520 | A read to the end of the stream yields every remaining fragment and the last ends where the content ends. |
| `LiveInput.HashPrefix` | proxmox_fleet/housekeeping_io.py:5759-5800 | Hashing a growing file in chunks digests exactly its first bytes. |
| `LiveInput.PrepareLiveInput` | proxmox_fleet/housekeeping_import.py:1256-1309 | A live input is used only after its saved prefix was found unchanged; a changed one records a conflict or nothing, and stops the run. |
| `LiveInput.RecordProof` | proxmox_fleet/housekeeping_import.py:1256-1309 | The verified size and then the digest of the file as it now is; after both the file is the content the row counts in. |
| `LiveInput.ProvingKeeps` | proxmox_fleet/housekeeping_import.py:1256-1309 | Moving the digest on keeps the invariant. |
| `LiveInput.UnchangedFilePasses` | proxmox_fleet/housekeeping_import.py:1256-1309 | An unchanged or appended file passes verification exactly when the row's verified size is the length behind its digest. |
| `LiveInput.VerificationInSync` | proxmox_fleet/housekeeping_import.py:1256-1309 | When the two records of a verification agree: always after both transactions on a file that is not empty, and otherwise exactly under the sizes given. |
| `LiveInput.CrashMakesFalseConflict` | proxmox_fleet/housekeeping_import.py:1256-1309 | A crash between the two transactions on an appended file makes every later verification of it fail, although nothing of it changed. |
| `LiveInput.LineageIsEvidence` | proxmox_fleet/housekeeping_import.py:1312-1361 | Equal decoded content of a completed predecessor proves a successor that decodes to its end delivered. |
| `LiveInput.TryLineageReuse` | proxmox_fleet/housekeeping_import.py:1312-1361 | Reuse completes the row for exactly the window that was read, pushes nothing, and happens only when the successor decodes to its end and the decoded digests agree; otherwise nothing changes. |
| `LiveInput.DecodeAll` | proxmox_fleet/housekeeping_import.py:1312-1361 | A stream is read whole only if it decodes to its end; then what was read is exactly its decoded content. |
| `LiveInput.ImportSource` | proxmox_fleet/housekeeping_import.py:1419-1526 | One source, by lineage or by streaming, with the guarantees of both: finished means acknowledged for content that decodes to its end. |
| `Pending.PendingDecodedBytes` | proxmox_fleet/housekeeping_import.py:1668-1674 | The bytes a pending batch stands for beyond what its sources already count. |
| `Pending.Retake` | proxmox_fleet/housekeeping_import.py:1749-1773 | Fragments are retaken exactly up to the batch's offset, with new increasing timestamps, whenever some number of them leads there. |
| `Pending.BatchTakesTo` | proxmox_fleet/housekeeping_import.py:1717-1785 | A batch's own number of fragments, and no other, leads to its offset. |
| `Pending.RereadPieces` | proxmox_fleet/housekeeping_import.py:1717-1785 | Reading the batch's own content again leads to its end exactly when the read got that far. |
| `Pending.BlobIsSpent` | proxmox_fleet/housekeeping_import.py:1788-1804 | A row that has outgrown its captured blob was read to the end of it, so the blob yields nothing more. |
| `Pending.RebuildPending` | proxmox_fleet/housekeeping_import.py:1717-1785 | A rebuild leaves the batch as it was, or the same entries in the same order with the same progress and later timestamps, if the file leads to the batch's offset through its own entries only, or not at all. For an unchanged source it succeeds, unless the read breaks off, exactly if the batch was made from the content that is read again. |
| `Pending.UnchangedRebuildsSame` | proxmox_fleet/housekeeping_import.py:1717-1785 | A source that is as it was, and every captured blob, rebuilds the same entries or does not lead to the offset, so the condition of the rebuild holds. |
| `Pending.RebuiltInOrderExactly` | proxmox_fleet/housekeeping_import.py:1717-1785 | Over any other file: the rebuilt batch is the next stretch of its source exactly if it has the entries of the old one. |
| `Pending.RewrittenCoversExactly` | proxmox_fleet/housekeeping_import.py:1717-1785 | Over a file rewritten in the meantime: the rebuilt body covers the old content of its stretch exactly if the file still holds the same bytes there. |
| `Delivery.FragmentsCarryOnly` | proxmox_fleet/housekeeping_import.py:1364-1416 | A body made from fragments carries no byte but those of its content, each at its own offset. |
| `Pending.ReplaceKeeps` | proxmox_fleet/housekeeping_import.py:1717-1785 | Acknowledging the replacement is as truthful as acknowledging the original. |
| `Pending.PushPending` | proxmox_fleet/housekeeping_import.py:1696-1714 | Only an accepted body moves its source on, to exactly the batch's own offset. |
| `Pending.FlushExistingPending` | proxmox_fleet/housekeeping_import.py:1677-1714 | The run goes on only when nothing is pending any more; then the one source stands where the batch ended. Only a batch that is stale by now needs a source that rebuilds no other one. |
| `CaptureRun.HelperCapture` | proxmox_fleet/housekeeping_io.py:5417-5480 | The contract of the node's capture: a reported blob holds exactly the size frozen for it. |
| `CaptureRun.RecordAnswer` | proxmox_fleet/housekeeping_import.py:1615-1660 | An answer counts only if it names every declared blob exactly once; then the capture is complete with every digest recorded. |
| `CaptureRun.EnsureCapture` | proxmox_fleet/housekeeping_import.py:1580-1660 | A capture is complete only with every declared blob recorded; any crash leaves it to be resumed, and a complete one is not touched again. |
| `CaptureRun.ReleaseIsSafe` | proxmox_fleet/housekeeping_import.py:1811-1846 | A blob that may be released decodes to its end and was delivered in full, on whichever of the two digests it is released. |
| `CaptureRun.Candidates` | proxmox_fleet/housekeeping_import.py:1811-1829 | Exactly the releasable blobs are named. |
| `CaptureRun.MaybeRelease` | proxmox_fleet/housekeeping_import.py:1811-1846 | Only releasable blobs of a complete capture are marked released, and only with no batch pending. |
| `Run.ProveInput` | proxmox_fleet/housekeeping_import.py:1961-1965 | After the prefix proof the window of a plan is the content its row counts in. |
| `Run.SettlePlan` | proxmox_fleet/housekeeping_import.py:1961-1972 | Settling one plan touches no other row and ends in one of the importer's endings, each of which says how the row was left; a good plan of a calm run is skipped, stopped by the budget or finished. |
| `Run.SettlePlans` | proxmox_fleet/housekeeping_import.py:1960-1975 | In whatever order the plans are settled: when nothing fails, either every plan is settled, acknowledgement included, but for exactly those that were stranded from the start, or the budget ran out and some source has moved on. In a calm run over good plans nothing fails. |
| `Run.ReadsNothingExactly` | proxmox_fleet/housekeeping_import.py:721-750 | When a plan reads nothing: its file is complete as it is, or was frozen, is complete and is active, or is gone without anything left to read. |
| `Run.StrandedForEver` | proxmox_fleet/housekeeping_import.py:1960-1975 | A row that is not acknowledged while its plan reads nothing stays so in every later run over the same file. |
| `Run.CrashAfterFirstStrands` | proxmox_fleet/housekeeping_import.py:1529-1561 | How a row gets there: a crash after the first transaction of a completion strands it exactly if it had a digest, was not acknowledged, and its file is as long as what was completed, or was frozen and is active. |
| `Run.CrashStrandsExactly` | proxmox_fleet/housekeeping_import.py:1529-1561 | And a crash after the second one strands it exactly under the same conditions but for the digest. |
| `Run.OthersStand` | proxmox_fleet/housekeeping_import.py:1960-1975 | Settling one plan leaves the plans of the other files valid. |
| `Run.ImportGuestLogs` | proxmox_fleet/housekeeping_import.py:1888-1985 | One whole import run from any state in order: whatever fails and wherever the process dies, the invariant holds, only planned files start a row and no row goes, and what is reported as covered is the file of its row; the budget is kept when nothing was pending; a smooth run settles every plan that was not stranded or makes progress, and a calm run over good plans is smooth. |
| `Tidy.TidyAccept` | proxmox_fleet/housekeeping_import.py:587-648 | Accepting the pending body, once or again, keeps the log tidy. |
| `Tidy.TidyStart` | proxmox_fleet/housekeeping_import.py:801-824 | A row that is started now owes nothing to the log as it is. |
| `Tidy.TidyAcknowledge` | proxmox_fleet/housekeeping_checkpoint.py:1228-1299 | Acknowledging moves the stored offset over everything the pending batch accounted for. |
| `Tidy.BatchEntryEnds` | proxmox_fleet/housekeeping_import.py:1364-1416 | The entries of a batch belong to its source and end at or before its offset. |
| `Tidy.BatchIsLined` | proxmox_fleet/housekeeping_import.py:1364-1416 | The entries of a batch lie at or beyond the stored offset, and no two have a byte in common. |
| `Tidy.OnlyPendingRepeats` | proxmox_fleet/housekeeping_import.py:1364-1416 | Since its row was started, a byte at or beyond the stored offset is in the log only through the pending batch, so that one range is all that can be delivered again. |
| `Tidy.OneEntryEach` | proxmox_fleet/housekeeping_import.py:1364-1416 | Since its row was started, a byte of a source is wherever it is in the log carried by copies of one entry, and is one and the same byte. |
| `Campaign.Campaign` | proxmox_fleet/housekeeping.py:1754-1815 | Any sequence of maintenance runs, absences, purges and arbitrary changes of the guest's files, with crashes anywhere, leaves a history: at every moment the invariant holds and the log is tidy; no event starts a row but a run that plans its file; intents and deletions change only as the books of a retention run say; and every file ever deleted was the exact file that its own acknowledged row backed at that moment, compressed as that row and its name say, decoding to its end, with every byte found in accepted bodies. |
| `Campaign.OneEvent` | proxmox_fleet/housekeeping.py:1754-1815 | One event, with what it may change of the rows, the log, the intents and the deletions. |
| `Campaign.OneImport` | proxmox_fleet/housekeeping.py:1774-1791 | An import within the campaign, with what it planned; pruning may follow only an import without failure after which nothing is pending and the initial files are acknowledged, with the files that import reported. |
| `Campaign.OneRetention` | proxmox_fleet/housekeeping.py:1792-1810 | A retention run within the campaign: every new deletion was made in its exchanges and is vouched for by its row as it was then, and the intents changed only as its books say. |
| `Campaign.PurgeKeeps` | proxmox_fleet/housekeeping_checkpoint.py:1875-1924 | Forgetting acknowledged tombstones keeps the invariant. |
| `Campaign.PurgeTidies` | proxmox_fleet/housekeeping_checkpoint.py:1875-1924 | And the log stays tidy. |
| `Campaign.FirstState` | proxmox_fleet/housekeeping_checkpoint.py:608-646 | An empty store satisfies the invariant whatever the log already holds. |
| `Campaign.OffsetWithinContent` | proxmox_fleet/housekeeping_import.py:1419-1526 | A source never stands beyond the end of the content it counts in. |
| `Repeats.WhoIsBorn` | proxmox_fleet/housekeeping_import.py:801-824 | Over a history from the empty store and log on: every row was started by a run that planned a file which continued no row, over the log of that length. |
| `Repeats.GoneIsPurged` | proxmox_fleet/housekeeping_checkpoint.py:1875-1924 | A row that is gone was purged. |
| `Repeats.UsedBeforeExactly` | proxmox_fleet/housekeeping_import.py:1159-1187 | The log had entries of the id before its row was last started exactly if a run started the row over a taken id, or after an old row of that id had been purged. |
| `Repeats.DeliveredOnce` | proxmox_fleet/housekeeping_import.py:1364-1416 | Every byte of any other row is carried by copies of one entry only, wherever the whole log carries it, and by the pending batch alone from its offset on. |
| `Repeats.TakenDeliversAgain` | proxmox_fleet/housekeeping_import.py:801-824 | A row that starts over a taken id delivers the bytes again that the old row had delivered: they are in the log, and in its next batch. |
| `Clashing.ClashExactly` | proxmox_fleet/housekeeping_import.py:1155-1215 | Two probed files of one run share an id exactly if their base ids are equal and both, or neither, replace the file of a row. |
| `Clashing.UnmatchedClashExactly` | proxmox_fleet/housekeeping_import.py:1159-1187 | Two files without a row share an id exactly if they have one profile and kind and are named after one path. |
| `Clashing.ClashHasBlob` | proxmox_fleet/housekeeping_import.py:1166-1190 | If they have different names, their id has a captured blob. |
| `Clashing.RotatedBeforePlanning` | proxmox_fleet/housekeeping_import.py:1158-1213 | How it comes about: a file was frozen and rotated before any row was planned, and a new file took its name; both are planned over one id, from the one blob. |
| `Clashing.NeverReadExactly` | proxmox_fleet/housekeeping_import.py:721-750 | The row completed from the blob then covers the file that was never read, with nothing to verify, exactly if that file is as long as the blob. |
| `Clashing.SecondProofExactly` | proxmox_fleet/housekeeping_import.py:1256-1309 | When the second of two replacements is proved after the first was completed, the row is truthful exactly if the front of the second, as long as the first, was archived. |
| `Clashing.BacksTheUnread` | proxmox_fleet/housekeeping_sources.py:277-301 | Otherwise, at equal sizes, the row backs the deletion of a file with the identity of the first and the content of the second, which was never read. |
| `KnownFiles.OwnMatch` | proxmox_fleet/housekeeping_import.py:956-991 | A file recorded as it is, with no row before its own at its path, is matched to its own row in the same generation and planned. |
| `KnownFiles.NoClash` | proxmox_fleet/housekeeping_import.py:1132-1225 | Over known files no two plans share an id. |
| `KnownFiles.EveryPlanIsGood` | proxmox_fleet/housekeeping_import.py:1960-1972 | Every plan over files that no longer change proves its prefix and can be read to its end. |
| `KnownFiles.FreshIsHonest` | proxmox_fleet/housekeeping_import.py:801-824 | A row says only what is so from its first recording on. |
| `KnownFiles.LeftIsHonest` | proxmox_fleet/housekeeping_import.py:1256-1309 | However its plan ended, the row of a known file still says only what is so of it: digest and blob are its front, and its two records of the verification agree. |
| `KnownFiles.DayGoesOn` | proxmox_fleet/housekeeping_import.py:1888-1985 | After a calm run the files are as well known as before it: what a row counts in is stable while the files are. |
| `Completion.ProgressLessens` | proxmox_fleet/housekeeping_import.py:1491-1522 | A run stopped by its budget leaves fewer undelivered bytes; none leaves more. |
| `Completion.SettledIsInLog` | proxmox_fleet/housekeeping_import.py:1888-1985 | After a settled run the whole of a known file, or of its blob if it was frozen, is in the log. |
| `Completion.BlobIsInLog` | proxmox_fleet/housekeeping_import.py:1580-1660 | And every blob of the frozen history, whether or not its file was probed. |
| `Completion.SettledIsAcknowledged` | proxmox_fleet/housekeeping_import.py:1529-1561 | And every known file is acknowledged unless it was stranded from the start. |
| `Completion.CalmRun` | proxmox_fleet/housekeeping_import.py:1888-1985 | One run in which pushes are accepted and transfers succeed: it settles every plan or moves some source on. |
| `Completion.Drain` | proxmox_fleet/housekeeping_import.py:1888-1985 | Finite completion: repeated over files that no longer change, such runs end with everything in the log and acknowledged, after at most one run more than there were undelivered bytes, however small the budget of a run. |
| `Arrivals.NewMatch` | proxmox_fleet/housekeeping_import.py:1158-1213 | A file that is new to the rows by path, id and inode, and frozen itself or closed, matches no row and is planned under the id of its path, with its own blob if it has one. |
| `Arrivals.ArrivalNoClash` | proxmox_fleet/housekeeping_import.py:1132-1225 | Over known and new files no two plans share an id. |
| `Arrivals.OwnKept` | proxmox_fleet/housekeeping_import.py:801-868 | Planning newcomers leaves the known files their rows. |
| `Arrivals.NewKnown` | proxmox_fleet/housekeeping_import.py:801-824 | Planning makes every newcomer known. |
| `Arrivals.ArrivalIsBegun` | proxmox_fleet/housekeeping_import.py:1888-1985 | The run goes on from the rows it planned like a run over known files from its own. |
| `Arrivals.ArrivalRun` | proxmox_fleet/housekeeping_import.py:1888-1985 | The first calm run with newcomers settles every plan, and in any case leaves all files known. |
| `Arrivals.ArchiveArrivals` | proxmox_fleet/housekeeping_import.py:1888-1985 | From any state in which the probed files are known or new, while they stay as they are, finitely many calm runs bring every byte of every newcomer, and all that was known, into the log and acknowledge it. |
| `InitialDay.FirstIsArrival` | proxmox_fleet/housekeeping_import.py:1580-1660 | Just after the initial capture all its files are newcomers. |
| `InitialDay.ArchiveAll` | proxmox_fleet/housekeeping_import.py:1888-1985 | From the initial capture on, while the files stay as they were frozen, finitely many calm runs bring every byte of every file into the log and acknowledge all of them; of the files only distinct paths and inodes, short names and content that decodes to its end are assumed. |
| `GuestFiles.Node.QuarantineAndUnlink` | proxmox_fleet/housekeeping_io.py:6538-6567 | Rename, look again, unlink or put back: nothing else is touched and nothing but the approved file is lost. |
| `GuestFiles.Node.RecoverLeftover` | proxmox_fleet/housekeeping_io.py:6380-6420 | A file left in quarantine is deleted only if it is the approved one, else put back or kept. |
| `GuestFiles.Node.PruneOne` | proxmox_fleet/housekeeping_io.py:6423-6572 | A request deletes nothing or exactly the approved file; absence is reported for recoveries only, and only when both paths are empty. |
| `GuestFiles.Node.Prune` | proxmox_fleet/executor.py:321-332 | Exact identities and digests only: every deletion is of the file its own request describes; every file there was is still there or was deleted, as often as it was there; nothing is touched but the paths of the requests; what is reported as done was deleted; and a complete answer is in request order. |
| `GuestFiles.EffectConserves` | proxmox_fleet/housekeeping_io.py:6423-6572 | One request loses no file but the one it deletes, and touches no other path. |
| `Retention.PlanPruneCandidates` | proxmox_fleet/housekeeping_retention.py:625-704 | The walk yields exactly `CandidatesOf`. |
| `Retention.CandidatesExact` | proxmox_fleet/housekeeping_retention.py:625-704 | Requests are made for exactly the covered files that are due, unprotected, allowlisted, closed and still the very files that were covered. |
| `Retention.AuthorizeDeletion` | proxmox_fleet/housekeeping_retention.py:1202-1270 | One decision for a batch of covered files: either the frozen history is acknowledged and every candidate is vouched for by its own row, compression included, or nothing is authorised. |
| `Retention.CoveredIsVouched` | proxmox_fleet/housekeeping_sources.py:277-301 | A backed request for a file the import reported as covered is for the very file of its row. |
| `Retention.UnacknowledgedWithholdsAll` | proxmox_fleet/housekeeping_retention.py:1202-1270 | A stranded row of the initial manifest withholds every deletion of the guest. |
| `Retention.RecoveryIsBacked` | proxmox_fleet/housekeeping_retention.py:712-784 | A recovery request is vouched for by the row that backed its intent. |
| `Retention.DeletedWasDelivered` | proxmox_fleet/housekeeping_sources.py:277-301 | A file deleted for a request that its row vouches for decodes to its end and held no byte that cannot be read back from the log store. |
| `Retention.RetentionRun.ResolveOutcomes` | proxmox_fleet/housekeeping_retention.py:787-887 | Intents change by exactly the settlements of the batch; the totals returned are their number and bytes; failure is reported exactly when an outcome is missing, foreign, unsettled or paused. |
| `Retention.SettledOnGrounds` | proxmox_fleet/housekeeping_retention.py:787-887 | Every settlement rests on an outcome at its own position for exactly the requested file; an absence only on a proven recovery. |
| `Retention.UnmatchedStays` | proxmox_fleet/housekeeping_retention.py:787-887 | An intent without a matching outcome stays as it was. |
| `Retention.LedgerSums` | proxmox_fleet/housekeeping_retention.py:787-887 | Totals of the ledger add up over batches. |
| `Retention.RecordPruneIntents` | proxmox_fleet/housekeeping_retention.py:918-939 | Every candidate gets a stored intent before the node is asked; it is pending exactly if its path and inode were not seen before or were still pending. |
| `Retention.SeenAgainExactly` | proxmox_fleet/housekeeping_retention.py:918-939 | If the process dies before a deletion it sent is answered, a later run looks for what became of it exactly if its path and inode were new or their intent was open already; a repeat of a settled one is sent all the same. |
| `Retention.RunPrune` | proxmox_fleet/housekeeping_retention.py:890-915 | One batch, whatever the guest did to its files until the node acts: the counters returned are what the batch settled, the intents changed by exactly that, the node lost no file but what it deleted for it, those are files their rows vouch for, and a lost answer settles nothing. |
| `Retention.OpenIntents` | proxmox_fleet/housekeeping_retention.py:1179-1193 | Exactly the intents in flight and the conflicts of a missing file are looked at again. |
| `Retention.OwnedIntents` | proxmox_fleet/housekeeping_retention.py:1352-1363 | Every deletion already answered for is known. |
| `Retention.RecoveryBatch` | proxmox_fleet/housekeeping_retention.py:1618-1664 | Only intents proved again are recovered; an in-flight one that cannot be stops the run. |
| `Retention.RecoverAll` | proxmox_fleet/housekeeping_retention.py:1618-1697 | Recovery in chunks, each behind a fresh gate: its own counters are what it newly settled, the books stay in order, and only backed files are deleted. |
| `Retention.BookIntents` | proxmox_fleet/housekeeping_retention.py:918-939 | What is recorded before a batch enters the books: the old intents, and pending ones for its requests. |
| `Retention.PruneAll` | proxmox_fleet/housekeeping_retention.py:1724-1763 | Deletion in batches, each decided again: its own counters are what it newly settled, the books stay in order, and only backed files are deleted. |
| `Retention.ApplyGuestRetention` | proxmox_fleet/housekeeping_retention.py:1299-1763 | On every return, and with the counters each return adds up, `files_pruned` is the number settled as done and `bytes_reclaimed` the journal decrease plus their bytes. The intents are those the run found and the pending ones it recorded for vouched files, changed by exactly what it settled; all it settled the node answered; and whatever was deleted, in its exchanges only, was vouched for by its row, decodes to its end and had been delivered. |
| `Retention.RunLeavesUnmatched` | proxmox_fleet/housekeeping_retention.py:787-887 | Over a whole run: an intent that no exchange answered for with exactly its file is as the run found it, or pending as the run recorded it. |
| `Retention.CountedWasDeleted` | proxmox_fleet/housekeeping_retention.py:787-887 | No more is counted as done than the node deleted. |
| `DiskUsage.FindExpectedShare` | proxmox_fleet/models/log_plugins.py:574-582 | The longest declared prefix is the nearest declared ancestor. |
| `DiskUsage.FindNearestParent` | proxmox_fleet/disk_usage.py:363-375 | Walking up finds the nearest measured proper ancestor. |
| `DiskUsage.BuildChildren` | proxmox_fleet/disk_usage.py:534-545 | Every directory lands in exactly one list, that of its nearest measured ancestor, in order. |
| `DiskUsage.CheckConsistent` | proxmox_fleet/disk_usage.py:378-398 | The row checks accept exactly the consistent measurements. |
| `DiskUsage.SelectWithin` | proxmox_fleet/disk_usage.py:401-495 | With measurements that add up, reported sizes and covered bytes of a subtree never exceed its total, and no negative residual arises. |
| `DiskUsage.SelectShaped` | proxmox_fleet/disk_usage.py:401-495 | Every entry strictly exceeds its own cap and reaches the floor, no path is named twice, and an entry with an entry below it is a `directory-other`. |
| `DiskUsage.SiblingsApart` | proxmox_fleet/disk_usage.py:363-375 | Directories under the same nearest ancestor lie apart. |
| `DiskUsage.RequestedSurvives` | proxmox_fleet/disk_usage.py:461-495 | An entry chosen below a retained request is never collapsed away: it reaches the report. |
| `DiskUsage.EmittedRequest` | proxmox_fleet/disk_usage.py:461-486 | Emitting a requested path itself retains its request. |
| `DiskUsage.ReportWithin` | proxmox_fleet/disk_usage.py:498-600 | All reported entries, the root's own files included, sum to at most the used bytes. |
| `DiskUsage.FilterStrict` | proxmox_fleet/disk_usage.py:498-600 | Duplicate paths and impossible shares cannot occur; the row check fails exactly on inconsistent rows, and of the consistent ones exactly those contradict each other that overcommit some directory; every other scan makes the report, within the used bytes if rows add up. |
| `DiskUsage.ContradictionExactly` | proxmox_fleet/disk_usage.py:401-495 | For every scan: the choice fails exactly if some directory that is compared with what is claimed below it holds less. |
| `DiskUsage.EntriesWithinUsed` | proxmox_fleet/disk_usage.py:401-495 | With consistent rows no entry is larger than the used space. |
| `DiskUsage.LargeChildrenContradict` | proxmox_fleet/disk_usage.py:378-398 | Rows that pass every check can still contradict each other: two large children, one requested, that exceed their parent; then no report is made. |
| `DiskUsage.ConsistentYetContradictory` | proxmox_fleet/disk_usage.py:378-495 | Such rows exist: a directory of 60 bytes with two of 50, under any names. |
| `Logrotate.LinesCanonical` | proxmox_fleet/housekeeping_native.py:280-322 | A text is its lines put together, each with its newline but perhaps the last. |
| `Logrotate.LinesOfConcat` | proxmox_fleet/housekeeping_native.py:280-322 | Lines put together are split again into the same lines. |
| `Logrotate.ScanBody` | proxmox_fleet/housekeeping_native.py:300-318 | A body ends at the first closing brace outside scripts; nesting or a missing brace is an error. |
| `Logrotate.ScanItem` | proxmox_fleet/housekeeping_native.py:280-322 | One line outside stanzas or one whole stanza is read. |
| `Logrotate.ScanLogrotateBlocks` | proxmox_fleet/housekeeping_native.py:280-322 | The one-pass scanner yields exactly the stanzas, with the offsets their lines start and end at. |
| `Logrotate.SpansOrdered` | proxmox_fleet/housekeeping_native.py:280-322 | Spans are ordered and disjoint and lie within the text. |
| `Logrotate.SpansAreStanzas` | proxmox_fleet/housekeeping_native.py:280-322 | Each span starts where a line starts and holds exactly its stanza's lines. |
| `Logrotate.ItemIsLocal` | proxmox_fleet/housekeeping_native.py:280-322 | A stanza reads the same whatever follows it. |
| `Logrotate.NpmRemainingContent` | proxmox_fleet/housekeeping_native.py:375-380 | The loop over descending starts cuts out exactly the spans. |
| `Logrotate.CutKeepsTheRest` | proxmox_fleet/housekeeping_native.py:375-380 | Cutting keeps exactly the bytes outside the spans of the dropped stanzas. |
| `Logrotate.RescanKept` | proxmox_fleet/housekeeping_native.py:280-322 | The kept lines and stanzas scan to themselves. |
| `Logrotate.CutCommutesWithScan` | proxmox_fleet/housekeeping_native.py:375-380 | Cutting any selection of stanzas and scanning commute: the rest scans to exactly the other stanzas, headers and bodies unchanged. |
| `ManagedPolicy.ParseLogrotate` | proxmox_fleet/housekeeping_native.py:325-343 | The file is ambiguous exactly when it does not scan, a stanza mixes paths, or the root occurs outside any stanza of its own; else the proxy's stanzas are found in order. |
| `ManagedPolicy.NpmBlocksOf` | proxmox_fleet/housekeeping_native.py:325-343 | The stanzas parsed are those of the items recognised as the proxy's. |
| `ManagedPolicy.CutoverKeepsTheRest` | proxmox_fleet/housekeeping_native.py:375-380 | What is left of the native file after the cutover is exactly its other lines and stanzas, and scans to them. |
| `ManagedPolicy.PreservedMechanismLines` | proxmox_fleet/housekeeping_native.py:346-358 | The loop keeps every line but governed directives outside scripts. |
| `ManagedPolicy.PreservedScans` | proxmox_fleet/housekeeping_native.py:346-358 | Taking governed directives out leaves a scanned body scannable, its scripts closed. |
| `ManagedPolicy.ScriptsIntact` | proxmox_fleet/housekeeping_native.py:346-358 | Writer scripts come through unchanged. |
| `ManagedPolicy.PreservedIdempotent` | proxmox_fleet/housekeeping_native.py:346-358 | Dropping governed directives twice is dropping them once. |
| `ManagedPolicy.ScannedBodyScans` | proxmox_fleet/housekeeping_native.py:300-318 | A body that was scanned from a file scans again. |
| `ManagedPolicy.BuildNpmManagedLogrotate` | proxmox_fleet/housekeeping_native.py:361-372 | The writer loop produces exactly the managed stanzas, separated by empty lines. |
| `ManagedPolicy.ManagedAgain` | proxmox_fleet/housekeeping_native.py:361-372 | Writing a body a second time changes nothing. |
| `ManagedPolicy.StanzaReadsBack` | proxmox_fleet/housekeeping_native.py:361-372 | A printed stanza reads back with its header and managed body, whatever follows it. |
| `ManagedPolicy.PolicyScans` | proxmox_fleet/housekeeping_native.py:361-372 | The managed policy scans, to the same headers in order with the managed bodies. |
| `ManagedPolicy.PolicyIsFixedPoint` | proxmox_fleet/housekeeping_retention.py:1826-1840 | Scanning the managed policy and building from the scan gives the identical text. |
| `ManagedPolicy.PolicyParses` | proxmox_fleet/housekeeping_retention.py:1826-1840 | A repeated run parses the managed policy without doubt: every stanza of the proxy is recognised with its managed body, and writing them again changes nothing. |
| `ManagedPolicy.SecondWritingExactly` | proxmox_fleet/housekeeping_native.py:346-358 | Writing a body twice differs from writing it once exactly when the writer, unlike the scanner, believes a script is still open at its end. |
| `Inventory.PairReadsBack` | proxmox_fleet/inventory.py:24-43 | A written pair reads back as itself exactly when its value has no equals sign but perhaps as its last character. |
| `Inventory.IterSection` | proxmox_fleet/inventory.py:65-91 | The reader's loop yields exactly the hosts of the section, in order. |
| `Inventory.HostsAppend` | proxmox_fleet/inventory.py:65-91 | Reading two pieces of a file is reading one after the other. |
| `Inventory.ValidateInlineVars` | proxmox_fleet/inventory_edit.py:124-134 | Variables are refused exactly when a key is malformed or a value holds a blank; else they are trimmed, keys in first-seen order and the last value winning. |
| `Inventory.FindInsertion` | proxmox_fleet/inventory_edit.py:206-219 | The loop finds the editor's position. |
| `Inventory.InsertionPoint` | proxmox_fleet/inventory_edit.py:206-219 | In a tidy file the position lies inside the group's block, with no host of the group after it. |
| `Inventory.HostLineReadsBack` | proxmox_fleet/inventory.py:41-43 | The written line reads back as the host and exactly its variables. |
| `Inventory.InsertedReads` | proxmox_fleet/inventory_edit.py:220-228 | An inserted host is seen at the end of its group and nowhere else. |
| `Inventory.NewSectionReads` | proxmox_fleet/inventory_edit.py:221-228 | A new section holds the host alone and takes nothing from the others. |
| `Inventory.AddHost` | proxmox_fleet/inventory_edit.py:166-228 | A host is taken in exactly when group, name and variables are valid and it clashes with none; then the reader sees the group's old hosts followed by it, with exactly its variables, and every other section as it was. |
| `Inventory.RemoveHost` | proxmox_fleet/inventory_edit.py:231-264 | The loop drops exactly the first entry of the group with that name, or refuses. |
| `Inventory.RemovalReads` | proxmox_fleet/inventory_edit.py:231-264 | The reader then sees the group without its first host of that name and every other section as it was; removal fails exactly when the group has no such host. |
| `Inventory.RemoveUndoesAdd` | proxmox_fleet/inventory_edit.py:231-264 | Adding and removing restores the original lines exactly when the file already had a section for the group. |

## Left out

- `Checkpoint.CheckpointStore.DiscardPendingBatch`: a mismatching id is refused like a missing batch; the program raises.
  Nothing in the program calls it.
- SQLite, its schema and JSON columns, the pending-body size limit of the store, and more than one guest per store.
- HTTP, retry delays and Loki queries: a push has one arbitrary outcome.
- Transport, tar framing and scratch directories; a fetch may fail at any time. The pool is proved by itself, and the
  range reader fetches each range singly.
- `Fragments.Fragments`: the floating-point estimate of the shrink loop is an arbitrary function, so every rounding is
  covered; the `decoded_bytes` statistic of a fragment is not modelled.
- `DecodedLogReader.readline`, which the fragmenter does not use.
- `Planning.PlanSources`: a run in which two files are given the same id records nothing and is followed no further; the
  program plans both over one row, which `Clashing` treats apart. Which of two frozen files sharing an inode keeps it is
  arbitrary.
- `LiveInput.TryLineageReuse`: which predecessor is proposed is arbitrary, because any completed one would be safe.
- `Run.SettlePlans`: the order of plans is arbitrary, which covers the order the program sorts them in.
- `Sources.FamilyNeverChanges`: `NPM_ARCHIVE_RE` and `PBS_API_ARCHIVE_RE` are modelled over ASCII digits and names
  without line breaks.
- `_recover_reassigned_sources`, a repair of rows written by an older version.
- Dry runs and audits, delivery markers, journal vacuuming, and the policy, endpoint and health gates of retention:
  each can only withhold a deletion and is an arbitrary decision here.
- `Retention.PlanPruneCandidates`: only the number of findings, not their wording, is kept, and it is not specified.
- `Pending.RebuildPending`: when it succeeds is stated for an unchanged source. A rebuild that would make another batch of
  a rewritten file is `Pending.RebuiltInOrderExactly`; `Campaign.Campaign` does not follow a run that would do that.
- `Import.ImportState.ReadFragments`: that a blob the node has dropped cannot be read any more; a read may fail at any time
  here, and does not in a calm run. After a reset of a taken id whose blob was dropped, every later read of it fails.
- `Completion.Drain`: ends early if a run's timestamp reaches twenty digits.
- `Arrivals.ArchiveArrivals`: of files that turn up it takes closed ones whose path and id are new; one that replaces or
  renames a known file, or takes an id, is left to the safety results.
- `Completion.SettledIsInLog`: of a frozen file that has grown, a settled run need only have delivered the blob; the rest
  is read by the next run, or left to the live reader.
- `DiskUsage.FilterStrict`: sorting, the entry limit and the wording of the report; shares are exact fractions of the
  sizes, not floating-point numbers.
- `Logrotate.Lines`: a newline is the only line terminator, and only ASCII blanks are blank.
- `ManagedPolicy.BuildText`: shell quoting is an arbitrary function that the tokenizer must undo.
- `Inventory.AddHost`: file encoding, backups, the atomic rewrite and the missing file; the lines are the state.
- Parsing and type checks of probes and node answers, which would only add easy members.
- `driver.py`, `cli.py`, `alloy.py`, `notifiers.py`, `runner.py`, `lock.py`, `history.py`, `ledger.py` and the other
  orchestration, rendering and counting modules.
