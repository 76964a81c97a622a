# tdrive-aliyunpan in Dafny

The plugin moves files from an Aliyun drive to local disk and from there into
tdrive. This project models the three parts that keep a file from being
corrupted, lost or paid for twice, whatever crashes or races on the way, and
proves what they promise over whole runs.

**Resumable download.** `Geometry` (chunks), `Base64`, `Decimal`, `Checkpoint`
and `CheckpointFiles` (the sidecar and its codec), `Progress`, `Disk`,
`Flushers` and `RangeFetch` are the parts, with the mutable ones as classes.
`Resume` puts them together as a step system: a pool of workers, the background
flusher, retries, cancellation, process death and power loss interleave freely
over a file with a volatile and a durable byte array and a sidecar that is
replaced atomically or not at all. Files and revisions may follow one another at
the same place. A byte on disk remembers which content it was written from, so
that "right whatever the files hold" is a statement about bytes. `Takeover` says
exactly when an attempt may take over what an earlier one left, `Detours`
what is left of a download after attempts for other files in its place, and
`Arrivals` that every download can still be brought to its end.

**Transfer queue.** `Items` says what each locked section does to one row.
`Lifecycle` runs one row through every interleaving of its worker, Cancel,
Retry, DeleteStaged, the history cleaners, the cloud clean-up, snapshot writers
and crashes, each locked section one step, so the windows between sections are
real. On it stand `Delivery` (the cloud original outlives the upload), `Budget`
(attempts), `JobNames`, `UploadJobs` and `JobFates` (who may abort an upload
job), `Leftovers` (which jobs nobody ever will), `Cancellation` and `Outcomes`
(what leaves the queue, how each action and each failure ends, and that a delivery
is possible). `Ledger` is the quota. `Engines` is the engine's own state, a class whose methods are the
sections over the whole queue. `Mirroring` says what it is for that state to be
the sum of its rows' lifecycles and the ledger, and what the moves of that sum
are; `Simulation` proves that each section is one of them: one lifecycle step of
every row it changes, a stutter of the others, and the ledger step it charges.
`Histories` then has every row, and the counters, of any history of such moves
and restarts live the runs that the other modules are about.
`Dedup` is the whole queue beside the scans, connected to `Lifecycle` by
`Dedup.LifecycleIsAllowed`; `SlotGate` is the slot gates, `Persistence` the
snapshot writer, `Retry` the backoff.

**Upload and shared resources.** `Upload` and `Missing` push segments to a host
that may silently lose any of them, or take its time storing them; the host counts
its own faults, and the upload may fail only for as many as it cannot make up for. `RateLimiter` and `Token` are the shared
limiter and the token refresh.

`dafny verify dfyconfig.toml` checks everything.

## What does not hold as stated in the code's own comments

The code is modelled as it is. Where a promise is conditional, the condition is
proved to be the exact one where that is marked with "exactly".

- The reuse branch compares sizes only, and is right exactly for the same content
  (or an empty file). The load branch is right exactly when the sidecar is refused
  or each byte it claims was written for the wanted content since `.part` was
  created. A wrong sidecar is of one of two kinds, and there is no third: it is for
  another content, let in by a blank hash that matches any hash, or `.part` has
  been given up since, as by a fresh start for another file, which recreates
  `.part` before it replaces the sidecar. Dying in between, or with every save
  failing, and going back to the first file resumes bytes that are not there,
  exactly when `.part` then has the first file's size; the size check catches every
  other case.
  `Resume.Sound` asks for no more than that of a run.
- A committed upload job can be aborted: exactly after a lost reply to
  CompleteUpload, or after a restart that brings back a row naming a job
  committed since. `UploadJobID` changes are not marked dirty, which makes such
  rows easy to come by.
- A job may be aborted twice, and not only after a failed Retry: after a restart
  it may be aborted exactly if the reloaded row names it, whether it was aborted
  before or not.
- The drive may be left with an open upload job that no run of the plugin ever
  aborts. That is so in exactly three cases: the reply to BeginUpload was lost
  (Cancel fires the context of that very call), a restart brought back a row that
  does not name the job, or the last row to name it was cleared, trimmed or dropped
  for an edited job, and no snapshot has it.
- A job whose abort failed can be aborted again by Cancel, not only by Retry.
- More failures than the budget can be charged between manual retries: exactly
  after a restart that brings back a waiting row with fewer attempts than were
  charged, because the last snapshot is older than the last failure. The next
  manual retry sets that right.
- Cancel waits for the run record, not for the reservation and the active count,
  which the worker gives back after its record is gone.
- A period roll inside a completion that then fails to store leaves the counter
  below zero (exactly then is the rollback wrong), and a scan inside one queues
  the file twice (exactly then does an append duplicate a key).
- Load charges a committed row whose delivery was not stored, although the stored
  counter may cover it already, having been stored on behalf of another row. It
  then counts more than was delivered: exactly when the bytes so charged twice
  exceed those of delivered rows that the counter had missed.
- ConfirmLogin writes the account without the refresh lock, so a token asked for
  under one user can be filed under another: exactly when it wrote another one
  while the refresh was waiting for its answer. The tokens themselves are never
  mixed up.
- A new download rate forgets the intervals already reserved, so the rate bound
  is per rate.

## Assumptions

- Unlinks succeed; creations, truncations, renames and unlinks are durable and in
  order; a successful fsync makes every earlier write to the file durable; after a
  power loss each byte has its cached or its durable value.
- One content per drive, file, size and hash. The cloud answers with bytes of that
  content, fewer of them, or an error.
- Replies to BeginUpload, CompleteUpload and AbortUpload may be lost, and a write
  that the host reports as failed may or may not have been stored. Calls the host
  applies after it answered, or after the plugin restarted, are not modelled. An abort is counted when it is issued; what the host did with it may
  stay unknown to the caller.
- Row IDs and upload job IDs are unique. The retry policy and the quota limit are
  fixed during a run. Integers are unbounded except in `Decimal` and `Retry`.

## Model

| member | source | states |
|---|---|---|
| `Resume.CrashSafeResume` | internal/aliyunpan/source_download.go:481-551 | In every state of every sound run - workers, retries, flusher, cancellation, process death, power loss - each byte claimed by a sidecar that is stored, or that a power loss could bring back, and that was written beside the present .part, is on the device and is its own file's. |
| `Resume.SuccessMeansTheSource` | internal/aliyunpan/source_download.go:156-259 | Whenever Download returns success in a sound run, over any number of files and revisions staged at the same place, the staged file equals the wanted content byte for byte, in cache and on the device. |
| `Arrivals.EveryDownloadCanFinish` | internal/aliyunpan/source_download.go:82-262 | From every state of every sound run: kill the download where it stands, start it again for any file, and there is a sound way on that ends with that file complete in cache and on the device, and no .part or sidecar left. |
| `Arrivals.StagedFileIsReused` | internal/aliyunpan/source_download.go:163-170 | A staged file of the right size is returned as it is, without a byte fetched. |
| `Arrivals.SidecarIsResumed` | internal/aliyunpan/source_download.go:190-240 | A sidecar that agrees on drive, file, size and chunk size, and on the hash or has none, beside a .part of that size: .part stays byte for byte, exactly the unfinished chunks are to be fetched, and progress starts at the bytes claimed. |
| `Arrivals.OtherLeftoversAreGivenUp` | internal/aliyunpan/source_download.go:197-205 | With any of these differing the attempt starts over from an empty .part. |
| `Arrivals.ChunkArrives` | internal/aliyunpan/source_download.go:703-763 | From wherever its worker is, a chunk can be brought into the bitmap. |
| `Takeover.AttemptIsRightExactlyWhenItsClaimsAre` | internal/aliyunpan/source_download.go:190-259 | From any state of a sound run, an attempt that loads what is there and returns, however it goes, returns bytes that read like the wanted file whatever the files hold if and only if the sidecar is refused, or each byte it claims was written for that content since .part was created. |
| `Takeover.ReuseIsRightExactlyForTheSameContent` | internal/aliyunpan/source_download.go:163-170 | The early-reuse branch, which compares sizes only, drops .part and sidecar and returns the wanted bytes whatever the files hold if and only if the staged file was downloaded as the same drive, file, size and hash, in chunks of any size, or is empty. |
| `Takeover.ClaimsOutliveAPowerLossExactlyWhenGrounded` | internal/aliyunpan/source_download.go:190-225 | What an accepted sidecar claims survives every power loss if and only if each such byte was written for the wanted content and synced since .part was created. |
| `Takeover.GroundedIsBoth` | internal/aliyunpan/source_download.go:190-196 | That condition, byte by byte, in cache and on the device. |
| `Resume.AttachedIsGrounded` | internal/aliyunpan/source_download.go:227-247 | A sidecar written for this very file beside the present .part always meets it, so it asks something only of what other files and dead attempts left. |
| `Takeover.OtherContentIsNeverRight` | internal/aliyunpan/source_checkpoint.go:127-138 | A sidecar of another content that the blank-hash rule lets in is right only if it claims nothing. |
| `Takeover.ReturningAfterADeath` | internal/aliyunpan/source_download.go:198-236 | After a fresh start for another file that dies before its first save, going back to the first file accepts the old sidecar if and only if the two sizes are equal, and then every byte it claims is blank; with another size the load branch starts over. |
| `Detours.ReturningFromADetour` | internal/aliyunpan/source_download.go:198-247 | The same for every attempt for another file in between, of any length, whose saves keep failing until it dies: the old sidecar is accepted if and only if .part has the old size, and is then right if and only if it claims nothing, or the other file has the same content and each claimed byte has been fetched since. |
| `Detours.AcceptedByOwnerAndEra` | internal/aliyunpan/source_download.go:190-196 | An accepted sidecar written beside the present .part is right if and only if that .part's file has the wanted content or the sidecar claims nothing; a wrong one is for another content, let in by a blank hash, or was written before .part was given up or taken over - there is no third way. |
| `Takeover.FreshStartKilled` | internal/aliyunpan/source_download.go:198-225 | The state such a start leaves: blanks beside the old sidecar. |
| `Takeover.WrongClaimIsReturned` | internal/aliyunpan/source_download.go:722-749 | One wrong claimed byte is never written again in that attempt and is returned. |
| `Takeover.WriteSpares` | internal/aliyunpan/source_download.go:831-842 | No worker's write touches a byte that the loaded record claims. |
| `Takeover.TwinRun` | internal/aliyunpan/source_download.go:555-692 | An attempt cannot tell what is on the device: the same steps from states with the same cache end with the same cache. |
| `Disk.OriginsDecide` | internal/aliyunpan/source_download.go:156-160 | Two staged files read alike whatever the cloud files hold if and only if byte by byte they came from the same place of the same content. |
| `Resume.ReportedProgressIsExact` | internal/aliyunpan/source_download.go:393-455 | While chunks are fetched the reported figure is the exact sum over disjoint chunks, lies in [0, size] and is size once every chunk is done. |
| `Resume.ResumedProgressIsTheClaim` | internal/aliyunpan/source_download.go:576-588 | A resumed download starts its progress at exactly the bytes its record claims. |
| `Resume.StepKeepsInv` | internal/aliyunpan/source_download.go:555-692 | Every sound step keeps the invariant relating sidecars, .part, staged file, record, workers' offsets, flusher snapshot and tracker. |
| `Resume.RunKeepsInv` | internal/aliyunpan/source_download.go:156-259 | The invariant holds in every state of every sound run, also between attempts for different files. |
| `Resume.PoolStepKeepsInv` | internal/aliyunpan/source_download.go:620-660 | The same for every interleaving of the worker pool and the flusher inside downloadChunks. |
| `Resume.TrackKeepsInv` | internal/aliyunpan/source_download.go:404-415 | A worker's setChunk keeps it, the flusher not yet knowing of the bytes counted. |
| `Resume.NoteKeepsInv` | internal/aliyunpan/source_download.go:483-491 | So does the note that follows, whether or not the flusher has taken its snapshot in between. |
| `Resume.MarkDoneKeepsInv` | internal/aliyunpan/source_download.go:642-657 | A chunk may be claimed once a sync has followed its last write: the order sync, then markDone, keeps the invariant. |
| `Resume.RecordKeepsInv` | internal/aliyunpan/source_download.go:504-536 | Offsets snapshotted before a successful sync may be written to the sidecar, whatever was noted meanwhile. |
| `Resume.SyncKeepsInv` | internal/aliyunpan/source_download.go:520-527 | A sync makes what the snapshot, or the finished chunk, describes durable and harms nothing else. |
| `Resume.WriteKeepsInv` | internal/aliyunpan/source_download.go:831-842 | Writing source bytes at a chunk's own offset damages no byte that any record, snapshot or other worker relies on. |
| `Resume.FoldInKeepsInv` | internal/aliyunpan/source_download.go:642 | Folding a finished chunk into the tracker counts it once. |
| `Resume.BeginKeepsInv` | internal/aliyunpan/source_download.go:722-728 | A retry may step back to the last durable offset, with tracker and flusher still right. |
| `Resume.SaveKeepsInv` | internal/aliyunpan/source_download.go:227-247 | Saving the record after pre-allocation, and starting the pool from it, is safe whether or not the write succeeds. |
| `Resume.SizingStepsKeepInv` | internal/aliyunpan/source_download.go:205-225 | Truncating to the file size loses nothing that an accepted record claims. |
| `Resume.OtherStepsKeepInv` | internal/aliyunpan/source_download.go:252-275 | Rename, sidecar removal, discarding, death and power loss keep the invariant. |
| `Resume.AllDoneIsComplete` | internal/aliyunpan/source_download.go:688-691 | When no chunk is pending the whole .part equals the source. |
| `Checkpoint.LoadAfterWrite` | internal/aliyunpan/source_checkpoint.go:118-188 | Loading what writeLocked wrote returns the same bitmap and offsets for every valid record, and nothing else. |
| `Checkpoint.LoadCheckpoint` | internal/aliyunpan/source_checkpoint.go:118-152 | Accepts a sidecar if and only if its version is 1 or 2, drive, file, size and chunk size agree, the hashes agree or one is blank, and the bitmap has the right length; what it yields is a valid record. |
| `Checkpoint.BitmapRoundTrip` | internal/aliyunpan/source_checkpoint.go:360-393 | Packing bits, base64 (section 4 of RFC 4648) and unpacking return the bitmap, for every length. |
| `Checkpoint.EncodeChunkBitmap` | internal/aliyunpan/source_checkpoint.go:360-371 | The in-place packing loop computes the specified text. |
| `Checkpoint.DecodeChunkBitmap` | internal/aliyunpan/source_checkpoint.go:377-393 | The unpacking loop computes the specified bitmap, or refuses a text of the wrong length. |
| `Checkpoint.BitmapBit` | internal/aliyunpan/source_checkpoint.go:389-391 | Chunk i is bit i % 8 of byte i / 8, counted from the least significant one. |
| `Checkpoint.PartialRoundTrip` | internal/aliyunpan/source_checkpoint.go:161-188 | No entry of a valid record is lost or changed through decimal keys. |
| `Checkpoint.DecodePartial` | internal/aliyunpan/source_checkpoint.go:161-177 | Keeps exactly the stored entries that name an unfinished chunk and an offset strictly inside it. |
| `Checkpoint.DecodingYieldsValid` | internal/aliyunpan/source_checkpoint.go:154-177 | Whatever a sidecar holds, what is decoded from it is a valid record. |
| `Checkpoint.BlankHashAcceptsAnotherRevision` | internal/aliyunpan/source_checkpoint.go:134-138 | A blank hash on one side lets another revision in. |
| `CheckpointFiles.CheckpointFile.MarkDone` | internal/aliyunpan/source_checkpoint.go:302-313 | Sets the bit, drops the chunk's offset and stores the new record, or reports that it could not; an index out of range changes nothing. |
| `CheckpointFiles.CheckpointFile.SetPartials` | internal/aliyunpan/source_checkpoint.go:280-295 | Replaces the offsets by those of unfinished chunks only and stores the new record. |
| `CheckpointFiles.CheckpointFile.WriteLocked` | internal/aliyunpan/source_checkpoint.go:323-328 | The sidecar becomes the document of the current record, or stays as it was. |
| `CheckpointFiles.CheckpointFile.Completed` | internal/aliyunpan/source_checkpoint.go:235-250 | Its byte counts add up to what the record claims. |
| `CheckpointFiles.CheckpointFile.PendingChunks` | internal/aliyunpan/source_checkpoint.go:254-264 | Lists exactly the unfinished chunks, in file order. |
| `CheckpointFiles.MutatorsKeepRecordsValid` | internal/aliyunpan/source_checkpoint.go:280-313 | setPartials and markDone keep a record valid, for any offsets and any index, so decoding loses nothing. |
| `CheckpointFiles.ReportsWhatWasWritten` | internal/aliyunpan/source_checkpoint.go:197-226 | checkpointBytesForSize of a written sidecar equals the bytes its record claims, hence completed(). |
| `CheckpointFiles.CheckpointBytesForSize` | internal/aliyunpan/source_checkpoint.go:197-226 | Counts a readable sidecar's finished chunks and part-way offsets, and 0 for anything else. |
| `CheckpointFiles.ClaimedWithinFile` | internal/aliyunpan/source_checkpoint.go:214-225 | A valid record claims between 0 and size bytes, and size only when every chunk is done. |
| `CheckpointFiles.ClaimIsCounted` | internal/aliyunpan/source_checkpoint.go:197-226 | The bytes a record is said to claim are the number of positions of the file it claims: all of finished chunks, and of each other chunk those before its offset. |
| `Geometry.ChunksTile` | internal/aliyunpan/source_checkpoint.go:85-100 | Chunks meet end to end, start at 0 and end at size. |
| `Geometry.ByteHasOneChunk` | internal/aliyunpan/source_checkpoint.go:93-100 | Each byte of the file lies in exactly one chunk. |
| `Geometry.ChunkIsInside` | internal/aliyunpan/source_checkpoint.go:93-100 | Every chunk is a non-empty range inside the file. |
| `Geometry.LengthsSumToSize` | internal/aliyunpan/source_checkpoint.go:85-100 | The chunk lengths add up to the size. |
| `Base64.RoundTrip` | internal/aliyunpan/source_checkpoint.go:370-385 | Decoding an encoding returns the bytes, with padding and all three remainders. |
| `Base64.TestVectors` | internal/aliyunpan/source_checkpoint.go:370-371 | The test vectors of section 10 of RFC 4648. |
| `Base64.TheAlphabet` | internal/aliyunpan/source_checkpoint.go:370-371 | The alphabet of RFC 4648 by its character codes. |
| `Base64.LineBreaksPass` | internal/aliyunpan/source_checkpoint.go:381-385 | A line break anywhere in the text changes nothing. |
| `Decimal.AtoiOfItoa` | internal/aliyunpan/source_checkpoint.go:164-185 | Atoi inverts Itoa within 64 bits. |
| `Progress.DownloadProgress.SetChunk` | internal/aliyunpan/source_download.go:404-415 | Records the absolute offset and reports the exact total. |
| `Progress.DownloadProgress.Complete` | internal/aliyunpan/source_download.go:418-427 | Folds the chunk and reports the exact total. |
| `Progress.DownloadProgress.Emit` | internal/aliyunpan/source_download.go:429-455 | The reported figure is the sum, with neither clamp firing, while the tracker is exact. |
| `Progress.SumWithinFile` | internal/aliyunpan/source_download.go:429-441 | An exact tracker's sum lies in [0, size] and is size only when every chunk is folded or fully received. |
| `Progress.StartIsExact` | internal/aliyunpan/source_download.go:579-588 | The tracker a resumed download builds is exact. |
| `Flushers.PartialFlusher.Flush` | internal/aliyunpan/source_download.go:507-536 | The sidecar changes only after the data it describes is on the device; a failed sync or write leaves the flush owed. |
| `RangeFetch.DownloadRange` | internal/aliyunpan/source_download.go:772-849 | Each status has its verdict: 401, 403 and 410, or an error that says so, are an expired link; a 206 for this range of a file of another size is a changed source; a 206 for this very range, or a 200 from the start, has as many bytes written as it holds, up to a failing buffer; all else is broken and writes nothing. What is written is the source's range, and noted. |
| `RangeFetch.WriteBody` | internal/aliyunpan/source_download.go:806-849 | The write loop: exactly the bytes served, up to the range's end or the failing buffer, each buffer noted once written; success exactly if the range is complete. |
| `RangeFetch.DownloadChunkWithRetry` | internal/aliyunpan/source_download.go:703-763 | Success means the chunk equals the source in the file; every attempt starts at the last durable offset, so nothing before it or outside the chunk changes, and what was right stays right; it fails only if no attempt was served the rest of the chunk in full. |
| `Lifecycle.RunKeepsBase` | internal/sync/engine.go:777-825 | In every reachable state the run record is the one worker's, the cancel flags agree with the row, deleting counts exactly the marks held, and cleaners that own the row have no worker beside them. |
| `Lifecycle.StepKeepsBase` | internal/sync/engine.go:1278-1332 | Every locked section keeps that, in any interleaving with crashes. |
| `Lifecycle.WorkerStarts` | internal/sync/engine.go:796-821 | A claim finds neither worker nor cleaner, so the new worker is alone. |
| `Lifecycle.WorkerRetires` | internal/sync/engine.go:1576-1588 | Taking down the run record leaves nothing behind that names it. |
| `Lifecycle.FetchKeepsBase` | internal/sync/transfer.go:54-106 | The staging half of transfer keeps it. |
| `Lifecycle.PushKeepsBase` | internal/sync/transfer.go:425-497 | The sections of upload keep it. |
| `Lifecycle.SettleKeepsBase` | internal/sync/engine.go:1005-1070 | The windows inside complete, its rollback, and the cloud deletion after it keep it. |
| `Lifecycle.PartKeepsBase` | internal/sync/transfer.go:57-96 | Requeue, fail, the deferred discard and the release keep it. |
| `Lifecycle.CleanKeepsBase` | internal/sync/engine.go:1458-1499 | Cancel, Retry, DeleteStaged, the history cleaners and the cloud clean-up keep it. |
| `Lifecycle.BeginKeepsBase` | internal/sync/engine.go:1409-1451 | Starting any of them keeps it. |
| `Cancellation.OneWorker` | internal/sync/engine.go:777-825 | At most one goroutine works on a row; meanwhile no cleaner is about to remove its files, and no step requeues, clears or trims it. |
| `Cancellation.ClaimFindsNoCleaner` | internal/sync/engine.go:796-798 | A row is claimed only when no worker and no cleaner is at it. |
| `Cancellation.CancelledSticks` | internal/sync/engine.go:1007-1010 | No worker, cleaner, scheduler or writer step takes a row out of the cancelled state. |
| `Cancellation.CancelledUntilRetry` | internal/sync/transfer.go:297-302 | Over any stretch of a run without manual retry or restart, a cancelled row stays cancelled. |
| `Cancellation.CancelWaitsForTheWorker` | internal/sync/engine.go:1476-1485 | Cancel goes on only when the worker it interrupted has taken down its run record. |
| `Cancellation.CancelDoesNotWaitForTheReservation` | internal/sync/transfer.go:46-71 | Wherever a worker releases its run under a waiting Cancel, that Cancel may return while the reservation is still held. |
| `Outcomes.CancelTakesHold` | internal/sync/engine.go:1409-1451 | Cancel takes a row if and only if it is queued, not delivered, and worked on or not marked; the row is then cancelled, its worker told to stop, and no worker can claim it. |
| `Outcomes.CancelledIsNotClaimed` | internal/sync/engine.go:784-798 | In every run: from a Cancel on, until a Retry or a restart, the row stays cancelled and is never claimed. |
| `Outcomes.IdleRowIsCancelled` | internal/sync/engine.go:1466-1474 | Cancel of a row nobody works on runs to its end: files gone, the job it named aborted once, no mark left. |
| `Outcomes.InterruptedCancelEnds` | internal/sync/engine.go:1476-1496 | Cancel of a row whose worker has gone: the job left on the row is taken off and aborted once. |
| `Outcomes.LeavingTheQueue` | internal/sync/engine.go:1511-1536 | In every run, restarts apart, a row leaves the queue cleared or trimmed - delivered, failed or cancelled, with no goroutine at work or cleaning up - or dropped for an edited job, undelivered and not running; a waiting row leaves in that last way only. |
| `Outcomes.LeavingIsAllowedExactly` | internal/sync/item.go:112-115 | Clearing, trimming and dropping are each open to a queued row exactly by its state, the deletion of its original, and whether anybody is at it. |
| `Outcomes.BackoffIsKept` | internal/sync/transfer.go:297-318 | In every run a row put back keeps the time it must not start before, and its attempts, until it is claimed, cancelled, retried or dropped, or the process restarts. |
| `Outcomes.TroubleIsSettled` | internal/sync/transfer.go:74-107 | How a broken attempt ends: no login, no room or a stopping engine give the attempt back; a transient failure costs it and goes back while attempts remain; a permanent one, or the last, fails the row. |
| `Outcomes.InterruptedWorkerClearsUp` | internal/sync/transfer.go:66-79 | A worker told to stop leaves its row as it is, charges nothing, and clears its staged files before its run record. |
| `Outcomes.StoppedAfterTheUpload` | internal/sync/transfer.go:118-123 | Told to stop between the upload and completion: the row is not completed. |
| `Outcomes.StoppedAtComplete` | internal/sync/engine.go:1005-1012 | Told to stop later still: complete refuses and the row stays cancelled. |
| `Outcomes.CompletionIsTakenBack` | internal/sync/engine.go:1030-1050 | A completion that could not be stored goes back to the queue with its attempt given back and no failure charged. |
| `Outcomes.RetryWithAJob` | internal/sync/engine.go:1282-1332 | A Retry of a row that names a job: the job is aborted once, and only if that worked does the row start over; otherwise it keeps its state and the job. |
| `Outcomes.RetryAtOnce` | internal/sync/engine.go:1281-1303 | A Retry without one: the row starts over at once, attempts and account at zero. |
| `Outcomes.StagedIsDeleted` | internal/sync/downloads.go:176-234 | DeleteStaged holds its mark until nothing is shown as downloaded, and changes nothing else. |
| `Outcomes.CleanUpSucceeds` | internal/sync/engine.go:646-678 | A clean-up that deletes the original notes it; the row awaits no other. |
| `Outcomes.CleanUpFails` | internal/sync/engine.go:646-678 | One that does not leaves the row awaiting it. |
| `Outcomes.RestartBringsBack` | internal/sync/engine.go:237-297 | A restart brings back the stored row and no goroutine: a running row waits again with its attempt given back, or is delivered if its upload was committed. |
| `Outcomes.OriginalIsDeletedOnlyIfAsked` | internal/sync/transfer.go:135-152 | In every run, crashes and clean-ups included, the original of a file whose job does not ask for its deletion is never deleted. |
| `Outcomes.DeliveryHappens` | internal/sync/transfer.go:46-156 | Every row a scan queues can be delivered: job committed and never aborted, delivery stored, original deleted if and only if the job asks for it, nobody left at work. |
| `Delivery.OriginalOutlivesTheUpload` | internal/sync/transfer.go:107-156 | Over every run with crashes: Complete or Finishing, in memory or stored, implies committed; the cloud original is deleted only after the commit; and afterwards no crash makes the row look undelivered. |
| `Delivery.AcknowledgedIsRemembered` | internal/sync/engine.go:1145-1165 | When persistNow acknowledges, the stored row records the delivery: derived from the worker taking the write lock, with a copy made after its mark, and from writers excluding each other. |
| `Delivery.PersistKeepsDurable` | internal/sync/engine.go:1030-1048 | Taking the write lock, the acknowledgement, and a reported failure whose write may have reached the host all keep the durability invariant. |
| `Delivery.RunKeeps` | internal/sync/engine.go:248-260 | The invariants behind it hold in every reachable state. |
| `Delivery.StepIsTruthful` | internal/sync/engine.go:319-330 | No step makes anything claim a commit that has not happened. |
| `Delivery.StepKeepsDurable` | internal/sync/engine.go:1030-1050 | Every step keeps this: who holds the write lock, what the host last stored, and that once complete has returned every stored or pending snapshot records the delivery. |
| `Delivery.SettleKeepsDurable` | internal/sync/engine.go:1017-1052 | The charge, store and rollback windows of complete keep that. |
| `Delivery.WorldKeepsDurable` | internal/sync/engine.go:240-297 | So do writers, crashes and the deletion Load performs. |
| `Delivery.CleanKeepsDurable` | internal/sync/engine.go:644-679 | So do the cloud clean-up and the other cleaners. |
| `Budget.RunKeepsBudget` | internal/sync/engine.go:809-814 | With a fixed policy Pending implies attempts < max, Running implies 1 <= attempts <= max, in memory and stored, and attempts equal charged failures plus an open claim plus the slack that restarts have made. |
| `Budget.StepKeepsBudget` | internal/sync/transfer.go:239-261 | Every step keeps that: login, stage room and restart give the claim back, a charged requeue happens only below max. |
| `Budget.FailuresAreBounded` | internal/sync/transfer.go:249-259 | Between manual retries at most max failures are charged, over restarts too, as long as no restart since the last renewal forgets a charge; what was forgotten before it does not matter. |
| `Budget.RenewalIsExact` | internal/sync/engine.go:1281-1331 | A manual retry that puts the row back renews the account exactly, whatever was forgotten; one whose abort fails does not count as one. |
| `Budget.BudgetIsExceededExactlyByForgetting` | internal/sync/engine.go:261-269 | Where nothing has been forgotten, a step makes it possible to charge more than max failures if and only if it is a restart that brings back a waiting row with fewer attempts than were charged. |
| `Budget.SlackStaysNonNegative` | internal/sync/engine.go:261-269 | A step lets the row fall behind the account if and only if it is such a restart. |
| `Budget.SlackChangesOnlyAtRestarts` | internal/sync/transfer.go:239-261 | Everything that is not charged is given back: login, stage room and stopping leave the account exact. |
| `Budget.ForgettingHappens` | internal/sync/engine.go:1145-1157 | A run with max 1 that stores the waiting row, fails, dies, and fails again: two charges and no manual retry. |
| `Budget.FailuresAreCharged` | internal/sync/transfer.go:310-312 | Over any stretch in which no manual retry renews the budget, restarts included, the account rises by exactly the number of charged failures. |
| `Budget.StepCharges` | internal/sync/engine.go:1074-1086 | A step raises the account by one exactly if it is a failure that is charged, a restart included in the others. |
| `JobFates.EveryJobIsAccountedFor` | internal/sync/transfer.go:451-497 | In every run, whatever replies are lost and however often it restarts: every job the drive opened is committed, or has had an abort issued, or is named by the row, or is in the hands of its opener or of a cleaner, or the reply that would have named it was lost, or a restart orphaned it. |
| `JobFates.EveryJobHasOneOwner` | internal/sync/transfer.go:629-659 | In runs that lose track of no commit: no committed job is aborted; a job is aborted twice only if a failed Retry put it back or a restart brought back a row naming it after an abort; and off the row it is in one pair of hands. |
| `JobFates.TrackIsLostExactlyByDisorder` | internal/sync/transfer.go:629-659 | From any state that accounts for every commit, a step makes the abort of a committed job reachable by orderly steps if and only if it loses the reply to CompleteUpload or restarts from a stored row naming a job committed since. |
| `Leftovers.OpenJobIsNeverAbortedExactly` | internal/sync/transfer.go:437-453 | In every reachable state: an open job can be aborted by no run at all if and only if the reply to BeginUpload was lost, or a restart brought back no row naming it, or the last row to name it has left the queue and the snapshots. |
| `Leftovers.OpenJobIsLostExactly` | internal/sync/transfer.go:629-644 | From any state that accounts for its jobs: some run aborts an open job if and only if a snapshot, a goroutine, or a row in the queue still has it. |
| `Leftovers.StepKeepsLost` | internal/sync/engine.go:1248-1332 | No step of anybody finds a job that is lost. |
| `Leftovers.StepKeepsStrays` | internal/sync/transfer.go:448-450 | A job whose opening reply is lost, and one that a restart orphans, is lost there and then, and stays so. |
| `Leftovers.UnheardHappens` | internal/sync/transfer.go:437-450 | Without any restart: Cancel fires the context of the opening call, the drive has opened the job, and nobody will ever abort it. |
| `Leftovers.ForsakingHappens` | internal/sync/engine.go:1511-1536 | A cancelled row comes back naming an open job and is cleared with the history; the job is then never aborted. |
| `Leftovers.RestartDecidesTheAbort` | internal/sync/engine.go:261-266 | After a restart an old job can be aborted, for the first time if it was open and once more if it was aborted before, if and only if the reloaded row names it. |
| `Leftovers.OrphansAreNeverAborted` | internal/sync/engine.go:264 | An open job at a crash is marked orphaned if and only if no run from there ever aborts it. |
| `Leftovers.OrphansHappen` | internal/sync/engine.go:261-266 | An orderly run orphans a job: it dies while sending, and the reload clears the job's name. |
| `JobFates.AbortedAgainAfterARestart` | internal/sync/engine.go:1282-1299 | An orderly run aborts one job twice without a failed Retry: taking a job off the row is not marked dirty, so a restart brings its name back. |
| `JobFates.StaleRowsHappen` | internal/sync/transfer.go:451-453 | Orderly steps alone reach a stored cancelled row that names a job the drive then commits. |
| `JobFates.ReloadedJobIsAborted` | internal/sync/engine.go:1288-1299 | From every sound state, a manual Retry after a restart aborts the job the reloaded row names, committed or not. |
| `JobFates.LostReplyLosesTrack` | internal/sync/transfer.go:475-491 | From every sound state, a lost reply can be followed by upload's own abort of the committed job. |
| `JobFates.CancelAbortsAgain` | internal/sync/engine.go:1466-1474 | Cancel, and not only Retry, issues another abort for a job a failed Retry put back. |
| `Leftovers.LostForGood` | internal/sync/engine.go:1248-1332 | A job that no snapshot, no goroutine and no row in the queue has is never aborted again, in any run. |
| `UploadJobs.StepKeepsAccounted` | internal/sync/transfer.go:425-497 | Every step keeps every job accounted for: lost replies to the opening and to the completing call, and restarts, included. |
| `UploadJobs.StepKeepsSound` | internal/sync/engine.go:1282-1332 | Every step keeps a job's name in one place: on the row, in one goroutine's hands, or in snapshots of rows that are neither waiting nor delivered. |
| `UploadJobs.StepKeepsClean` | internal/sync/engine.go:1466-1496 | Every orderly step keeps committed jobs out of everybody's hands and off the row, but for the moment after the commit. |
| `UploadJobs.TakingKeepsClean` | internal/sync/transfer.go:633-644 | The first section of abort hands a leftover job to one cleaner and takes it off the row. |
| `Dedup.NoFileIsQueuedTwice` | internal/sync/scan.go:439-480 | Whatever scans, row steps, writers and crashes interleave, no two undelivered rows share a key, in memory or stored, provided no scan appends a file that is inside complete. |
| `Dedup.AppendIsSafeExactlyOutsideTheWindow` | internal/sync/scan.go:492-517 | In any state without duplicates, what inspectLocked lets a scan append can lead, by steps that are safe themselves, to two rows with one key that are both still to be delivered, if and only if a row with that key is inside complete. |
| `Dedup.FailedWriteTakesBack` | internal/sync/engine.go:1035-1048 | What the failed write does to a row of the lifecycle inside complete is just that: running again, and outside the window. |
| `Dedup.InspectLocked` | internal/sync/scan.go:492-517 | The loop stops exactly for a row with the key that is not complete, or a job edited since, and otherwise lists the other target directories. |
| `Dedup.DeliveredIsExact` | internal/sync/scan.go:512-514 | Those directories are exactly those of complete rows with the key and another target. |
| `Dedup.LifecycleIsAllowed` | internal/sync/engine.go:1005-1070 | Every lifecycle step of a row, crash apart, keeps its key and never undoes a stored delivery. |
| `Dedup.ScanInsideAFailingCompletion` | internal/sync/engine.go:1035-1048 | A run from an empty queue: a file is queued, claimed and completed, a second scan looks in between, the write fails, and two rows for it are to be delivered. |
| `Items.KeyIsInjective` | internal/sync/item.go:120-124 | The key tells files apart whenever job IDs and hashes hold no NUL, whatever the path holds. |
| `Items.SameFileExactly` | internal/sync/item.go:117-124 | Two rows are the same file to a scan if and only if job, path, hash and size agree; where it goes is no matter. |
| `Items.KeyNeedsNoNul` | internal/sync/item.go:120-124 | Without that the key is ambiguous. |
| `Ledger.QuotaSafety` | internal/sync/engine.go:833-842 | With a fixed limit, for any number of workers, across period rolls, and whatever the counter held at the start: used plus open bytes stay within it, or add nothing to what the counter held, or are exactly one oversize file alone. |
| `Ledger.ReservationsAreExact` | internal/sync/engine.go:949-956 | reserved is the sum of unreleased claims and active counts unfinished workers, so neither clamp fires, in every run. |
| `Ledger.AdmissionIsExact` | internal/sync/engine.go:833-842 | In every orderly run a file is admitted if and only if there is no limit, or it fits beside what the claims have spent and hold, or it is larger than the whole limit and they have spent and hold nothing. |
| `Ledger.EveryFileHasItsTurn` | internal/sync/engine.go:827-842 | From every state of every run, for every size and limit: once the transfers under way have ended and the period has rolled, the file is admitted, with no other let in before it. |
| `Ledger.CountersAreKept` | internal/sync/engine.go:844-851 | The step form of that. |
| `Ledger.StepKeepsInv` | internal/sync/engine.go:803-817 | Admitting, charging, settling, releasing, rolling and an orderly rollback keep the quota invariant. |
| `Ledger.RollbackIsExactUnlessRolled` | internal/sync/engine.go:1035-1048 | A rollback leaves the counter right if and only if the period has not rolled over since the charge, or the file is empty. |
| `Ledger.RollInsideAFailedCompletionOvershoots` | internal/sync/engine.go:697-709 | A roll inside a failing completion drives the counter below zero and admits more than the limit. |
| `Engines.Engine.TakeNext` | internal/sync/engine.go:777-825 | Claims the first row in queue order that waits, is past its backoff, unmarked, without a run and of a current job, if and only if the engine is not paused, a worker is free, and the file fits beside used and reserved bytes, or there is no limit, or it is larger than the limit with nothing used or reserved; registers its run, reserves its size and touches nothing else. |
| `Engines.Engine.FindReady` | internal/sync/engine.go:784-802 | The first row in queue order that waits, is past its backoff, has no run and no mark, and belongs to a current job. |
| `Engines.Engine.FirstIsInOrder` | internal/sync/engine.go:784-802 | The row taken is preceded only by rows that are not ready. |
| `Histories.EveryRowIsSafe` | internal/sync/engine.go:777-825 | In every history of the engine's sections over all rows, from an empty queue through any number of restarts: one worker a row at most and no cleaner that owns the row beside it, and the delivery promises, for every row at once. |
| `Histories.RowsLeaveByEditsOrAsHistory` | internal/sync/engine.go:1511-1536 | In every such history a waiting row leaves the queue only when its job is edited or with a restart; any other only then, or delivered, failed or cancelled with nobody at it. |
| `Histories.EveryJobIsFound` | internal/sync/transfer.go:437-453 | In every such history, of every upload job of every row: it is open and beyond every abort if and only if its opening reply was lost, a restart orphaned it, or the last row to name it left the queue. |
| `Histories.CountersAreSafe` | internal/sync/engine.go:833-842 | In every such history reserved and active are the exact sums over claims; if no completion is rolled back in a later period, used and open bytes stay within the limit, or add nothing to what the last restart found, or are one oversize file. |
| `Histories.EveryRowLivesARun` | internal/sync/engine.go:86-110 | Whatever sections and restarts interleave, each row goes through a run of `Lifecycle`. |
| `Histories.CountersLiveARun` | internal/sync/engine.go:697-709 | Since the last restart the counters go through a run of `Ledger`, an orderly one if no completion is rolled back in a later period. |
| `Simulation.TakeNextRow` | internal/sync/engine.go:777-825 | takeNextWithRun claims the first ready row exactly if the engine is not paused, a worker is free, and the ledger's sums leave room for its size, or it is larger than the limit and they are zero: it then begins a worker in that row's lifecycle, with the next run number, and enters its size in the ledger; every other row stutters. |
| `Simulation.StartCompletion` | internal/sync/engine.go:1005-1030 | The first section of complete is that step of its row, and unless it refuses, the charge of the worker's own claim, which is then open to it; what it returns is what the goroutine's rollback needs. |
| `Simulation.CompletionIsStored` | internal/sync/engine.go:1030-1050 | A completion that could be stored settles the worker's claim and changes no row in memory. |
| `Simulation.RollBackCompletion` | internal/sync/engine.go:1035-1048 | A completion that could not be stored is the rollback step of its row and of its claim. |
| `Simulation.ReleaseReservation` | internal/sync/engine.go:949-956 | releaseReservation is the worker's last lifecycle step and the release of its claim, which is always open by then, so the clamp does not fire. |
| `Simulation.FinishActive` | internal/sync/engine.go:844-851 | finishActive is the ledger's last step for a worker that has given its reservation back. |
| `Simulation.RollQuota` | internal/sync/engine.go:697-709 | rollQuota is the ledger's roll and touches no row. |
| `Simulation.Perform` | internal/sync/engine.go:968-1588 | Every section that changes one row and no counter - setStage, fail, requeue (transfer.go:297-315), watchItem and its release, the job noted and taken off (transfer.go:451-453, 633-644), the marks, the notes of erasure and reset, the end of Retry - is the lifecycle step its goroutine has come to; every other row and the ledger stand still. |
| `Simulation.SectionMoves` | internal/sync/engine.go:1543-1588 | What such a section does to the row is what the lifecycle step does, a worker finding its own run record by the number the engine gave it. |
| `Simulation.CancelRows` | internal/sync/engine.go:1409-1451 | Cancel is one cancelling step of the lifecycles of exactly the wanted rows of the queue that are not delivered and are worked on or unmarked, and a stutter of the others and of the ledger. |
| `Simulation.RetryRows` | internal/sync/engine.go:1264-1303 | The first section of Retry is one retrying step of exactly the wanted rows of the queue that neither run nor are delivered and that nobody is at. |
| `Simulation.MarkStaged` | internal/sync/downloads.go:176-206 | The first section of DeleteStaged begins one cleaner on exactly the wanted rows nobody works on. |
| `Simulation.MarkCleanups` | internal/sync/engine.go:648-656 | The first section of retryPendingCleanups begins one clean-up on exactly the rows that await it. |
| `Simulation.ClearFinished` | internal/sync/engine.go:1511-1536 | ClearFinished drops exactly the wanted rows of the queue that are delivered, failed or cancelled, without run or mark, each by one step of its lifecycle. |
| `Simulation.ApplySettings` | internal/sync/engine.go:461-487 | applySettings drops exactly the rows of edited jobs that neither run nor are delivered, each by a step of its lifecycle. |
| `Simulation.TrimHistory` | internal/sync/engine.go:1101-1125 | The history trim drops only delivered, failed or cancelled rows without run or mark whose original needs no deletion, by steps their lifecycles allow, and touches no other. |
| `Simulation.Consider` | internal/sync/scan.go:449-480 | A scan's append brings a fresh lifecycle into being, and is otherwise a stutter. |
| `Simulation.Load` | internal/sync/engine.go:237-297 | Load in a new process is a restart of every stored row's lifecycle, and starts the ledger from the counter it restores, which is never below zero. |
| `Mirroring.StepsElsewhere` | internal/sync/engine.go:1145-1157 | Calls made between sections, looks at the row, and whatever drive, host and writers do are lifecycle steps too, and change no row in memory and no counter. |
| `Mirroring.RowsAreExclusive` | internal/sync/engine.go:777-825 | Wherever the engine mirrors lifecycles: a row's mark count is the number of marks its goroutines hold, a worker's run record is its own, and a cleaner that owns the row has no run beside it. |
| `Engines.Engine.CompleteRow` | internal/sync/engine.go:1005-1070 | With nothing in between, a completion that cannot be stored leaves every row and the counter as they were. |
| `Engines.Engine.RequeueRow` | internal/sync/transfer.go:297-318 | Puts the row back not before the given time, unless it was cancelled, giving the attempt back if it is not charged; nothing else changes. |
| `Engines.Engine.CancelRows` | internal/sync/engine.go:1409-1451 | Every wanted row of the queue that is not delivered, and is worked on or not marked, becomes cancelled, with its run told to stop and one more mark; every other row is as it was. The rows are split into interrupted and idle ones with the run or upload job each had. |
| `Engines.Engine.RetryRows` | internal/sync/engine.go:1264-1303 | Of the wanted rows of the queue that neither run nor are delivered and that nobody is at, those without an upload job start over, and those with one are only marked; every other row is as it was. |
| `Engines.Engine.MarkStaged` | internal/sync/downloads.go:176-206 | Marks exactly the wanted rows nobody works on. |
| `Engines.Engine.MarkCleanups` | internal/sync/engine.go:648-656 | Marks exactly the complete rows whose original is still to be deleted. |
| `Engines.Engine.ClearFinished` | internal/sync/engine.go:1511-1536 | Drops a wanted row of the queue if and only if it is delivered, failed or cancelled, without run or mark; the rest keep their order. |
| `Engines.Engine.ApplySettings` | internal/sync/engine.go:468-482 | Exactly those rows leave; the rest keep their order, and the queue is marked dirty only if any left. |
| `Engines.Engine.TrimHistory` | internal/sync/engine.go:1101-1125 | Drops, oldest first, only delivered, failed or cancelled rows without run or mark whose original needs no deletion, and only as many as exceed the limit. |
| `Engines.SortByFinished` | internal/sync/engine.go:1111 | A permutation of the candidates, oldest first. |
| `Engines.Engine.Consider` | internal/sync/scan.go:449-480 | Appends the row if and only if the job is current and every row of the queue with its key has been delivered. |
| `Engines.Engine.Load` | internal/sync/engine.go:237-297 | Each stored row is put back, or completed and charged if its upload was committed, whether or not the stored counter covered it already; the counter then covers at least what was completed in the current period. |
| `Engines.LoadCountsTwiceExactly` | internal/sync/engine.go:258-287 | With everything delivered in one period: Load counts more than was delivered if and only if the bytes of committed rows that the stored counter already covered exceed those of delivered rows it missed. |
| `Upload.Run` | internal/sync/transfer.go:455-497 | Success means the host committed and the segments it holds concatenate to the staged file up to the size the queue recorded - all of it when the sizes agree, the empty file included. As long as no stream or call breaks and nobody cancels, it succeeds unless in each of three rounds the host lost a segment, or had one in flight whenever it was asked, six times. No segment the host has stored is sent again. Failure issues exactly one abort, never on a committed job while replies arrive; at most 18 completions are asked for. |
| `Upload.SendSegments` | internal/sync/transfer.go:504-548 | Every listed segment in range is sent whole, cut as the drive cuts it, or the call fails, which it does only if something breaks or the file is too short; what the host has or has in flight is always the right slice. |
| `Upload.Commit` | internal/sync/transfer.go:577-601 | Success means committed; the missing list it returns is exactly what the host lacks. Short of a break it gives up only after six refusals, and if nothing was lost only with segments in flight at each of them. |
| `Upload.AllSegmentsAreTheFile` | internal/sync/transfer.go:499-547 | Right slices for every index concatenate to the file. |
| `Upload.PutSegment` | internal/hostapi/hostapi.go:218-249 | Exactly the declared length goes out from the reader's position, or the call fails, which it does only if the stream breaks or the file is too short. |
| `Missing.ParsingInvertsTheRefusal` | internal/sync/transfer.go:604-621 | Parsing the host's rendering of any list of indices returns that list, wherever it stands in the message, brackets before it included, unless an earlier place already matches the pattern. |
| `Missing.OddFieldsAreSkipped` | internal/sync/transfer.go:613-619 | A field that is no number costs no other. |
| `Missing.TheDrivesWords` | internal/sync/transfer.go:40-42 | The drive's own refusals, read word for word, and a message that is none. |
| `Missing.NothingMatchesBefore` | internal/sync/transfer.go:604-621 | A prefix in which the words never occur cannot match earlier. |
| `RateLimiter.WindowIsBounded` | internal/aliyunpan/source_client.go:773-819 | Bytes granted with a start inside any window are at most rate times its length plus the largest request. |
| `RateLimiter.ByteRateLimiter.AggregateBound` | internal/aliyunpan/source_client.go:790-805 | The limiter's own history meets that bound after any sequence of calls at a constant rate. |
| `RateLimiter.ByteRateLimiter.Wait` | internal/aliyunpan/source_client.go:790-805 | Reserves the next free interval, disjoint from all reserved before. |
| `SlotGate.NoLostWakeUp` | internal/sync/engine.go:856-946 | A waiter that nothing will wake sees no free slot under its own limit (two downloads by default, one upload at least), in every reachable state, also after the limit is raised. |
| `SlotGate.CountsAreExact` | internal/sync/engine.go:864-880 | Active counts are the unreleased holders; a look is granted if and only if fewer than the limit in force are active; a release takes exactly its own slot off. |
| `SlotGate.EveryChangeWakesAll` | internal/sync/engine.go:933-946 | Whenever a slot is given back or the limit changes, everybody who sleeps may wake. |
| `SlotGate.StepKeepsInv` | internal/sync/engine.go:933-946 | Looking, sleeping, waking, releasing and reconfiguring keep both. |
| `SlotGate.TransferSlots.TryAcquireDownload` | internal/sync/engine.go:861-884 | One pass of the loop: a slot if and only if fewer than the configured limit, or two without one, are active; otherwise the channel to sleep on. |
| `SlotGate.TransferSlots.TryAcquireUpload` | internal/sync/engine.go:902-923 | The same under the caller's own limit, at least one. |
| `SlotGate.TransferSlots.ApplyConcurrency` | internal/sync/engine.go:483-485 | A changed limit wakes every waiter. |
| `Token.OneRefreshPerRevision` | internal/aliyunpan/source_client.go:412-454 | Over any run of refreshes, logins, logouts and identity updates, with the refresh lock and the credentials lock taken separately, no two refreshes are installed over one revision. |
| `Token.OneRefreshPerRefusal` | internal/aliyunpan/source_client.go:412-422 | In every run the revision a request saw refused is the one its refresh installs over, or the token it asked with was blank; so of any number of requests that saw the same token refused at most one installs a new one. |
| `Token.RefreshAsksExactly` | internal/aliyunpan/source_client.go:412-425 | A refresh that holds the lock asks the token service if and only if the refused token is still the current one, or there is none, and a ticket and a user are there; otherwise it leaves, and in no case touches the credentials before the answer. |
| `Token.AnswerIsInstalled` | internal/aliyunpan/source_client.go:435-446 | What an answer leaves: the new access token, a new refresh token only if one came, the ticket it asked with, the user then current, and a revision one higher. |
| `Token.RevisionCountsTokens` | internal/aliyunpan/source_client.go:402-410 | The revision rises, by one, exactly with a login, a logout or an installed refresh, and tokens change in no other way. |
| `Token.LoginIsNeverOverwritten` | internal/aliyunpan/source_client.go:402-410 | The tokens a refresh replaces are the very ones it sent to be refreshed, and the user it leaves is the one it found; no login or logout falls between. |
| `Token.InstalledUserDiffersExactly` | internal/aliyunpan/source_login.go:184-197 | The user a refreshed token is filed under differs from the one it was asked for if and only if the last ConfirmLogin that wrote its account in between, without the refresh lock, wrote another one. |
| `Token.UserWhileAsking` | internal/aliyunpan/source_client.go:521-535 | While a refresh waits for its answer only ConfirmLogin changes the user; updateAccountIdentity has to wait. |
| `Token.TokenAskedForAnotherUser` | internal/aliyunpan/source_login.go:179-197 | It happens: a late look-up for the old account writes its user back, a refresh asks with the new ticket under that user, and ConfirmLogin then names the new one. |
| `Token.TokenStore.FinishRefresh` | internal/aliyunpan/source_client.go:435-454 | A blank token installs nothing; otherwise the asked tokens are replaced under whatever user is current, the refresh token only if one came, and the revision rises by one. |
| `Token.TokenStore.BeginRefresh` | internal/aliyunpan/source_client.go:416-425 | Already refreshed, not logged in, or to be asked for: each verdict exactly by revision, access token, ticket and user. |
| `Token.TryToken` | internal/aliyunpan/source_client.go:142-190 | The tries with one token: none without a token; a delay costs one of three; any other answer decides at once. |
| `Token.RequestJSON` | internal/aliyunpan/source_client.go:140-204 | How every request ends is decided by the first answer to each token that is no mere delay, within three tries: success and other errors at once; an expiry by one refresh, refused without a login, failed without a new token, and else followed by three more tries, after which a second expiry means the login is gone. |
| `Persistence.CleanMeansStored` | internal/sync/engine.go:1145-1165 | Whenever dirty is false after a marked change, the stored snapshot is the queue as it stands. |
| `Persistence.StoredOnlyAdvances` | internal/sync/engine.go:1145-1157 | Stored snapshots appear in increasing revision order. |
| `Persistence.OneWriteStoresIt` | internal/sync/engine.go:1144-1165 | From every state no write is under way in, one write that nothing comes between stores the queue as it stands and clears the flag. |
| `Persistence.QueueStore.Confirm` | internal/sync/engine.go:1159-1163 | The flag is cleared if and only if nothing was marked since the copy. |
| `Retry.Backoff` | internal/settings/settings.go:72-91 | min(initial * 2^(attempts-1), maximum) for every number of attempts, with no intermediate value beyond 64 bits. |

## Left out

- Engines.Engine.TakeNext: rows are values in a map keyed by ID rather than shared pointers, so aliasing of one item by several goroutines shows only as interleaving of sections; speed samples, error texts and creation times have no field.
- Engines.Engine.Load: the download counter it re-reads from the staging area is not part of a loaded row; the settings it restores are parameters.
- Engines.Engine.TrimHistory: ties in finish time are broken by queue order, where the original's sort leaves them open.
- Simulation.TakeNextRow: which goroutine is which run number, and the order of a goroutine's own sections, are given by the caller as the step it is at; the engine's code holds them in its call stack.
- Histories.CountersAreSafe: one quota limit throughout; what Load restores may exceed it.
- Lifecycle.RunKeepsBase: removing files is a step without content; the bytes themselves are the download model's.
- Delivery.OriginalOutlivesTheUpload: the host's commit is a flag of the row; that a committed job holds the staged bytes is `Upload.Run`, for the files of one upload.
- Upload.Run: one upload against one job, with the host's losses, delays and failures chosen freely; what is in flight lands when the job is asked to complete. Progress and quota display during sending are not modelled.
- RangeFetch.DownloadChunkWithRetry: one worker without interleaving, where the flusher does not run; `Resume` has the interleavings.
- RateLimiter.WindowIsBounded: exact real arithmetic, where the code truncates to nanoseconds; grants are ordered by the lock, not by when the caller wakes.
- Token.RequestJSON: one request without interleaving; concurrent ones are the runs of `Token`. A failure to persist credentials is not told apart from other failures, and nicknames have no field.
- Resume.CrashSafeResume: reading and writing JSON is taken as exact, and a sidecar holds the record it was written from (`Checkpoint.LoadAfterWrite`). A sidecar that was not written beside the present .part is `Takeover`'s.
- HTTP, JSON, OSS link parsing, signed-link renewal and expiry (`downloadURLState`), plugin RPC, stream deadlines, timers, jitter and clocks: oracles or free choices.
- int64 overflow of `size + chunkSize - 1` and of sums over items.
- `PruneStaged`, the orphan branch of `DeleteStaged` and `reserveStageRoom`: their directory walk is outside the lock, so only an atomic version would hold.
- The settings `applySettings` installs, and the slot gates it signals, are parameters of what reads them.
- The lookups `consider` makes between its two sections (`deliveredElsewhere`, listing the drive): they only decide whether to go on.
- Schedule windows, path helpers, name validation, account probing, the login dialogue, legacy CLI mode, `internal/webui` and `cmd/`: they would add only easy members.
- Arrivals.EveryDownloadCanFinish: that a way on exists, not that the scheduler takes it.
- Outcomes.DeliveryHappens: the same; fairness is not modelled.
- Ledger.EveryFileHasItsTurn: the same, for a limit that stays as it is.
