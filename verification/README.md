# proton-drive-fs: verified model

proton-drive-fs mounts Proton Drive through FUSE. This project models the parts of it that are hard
to get right and proves what they promise, in Dafny 4.11. `dafny verify dfyconfig.toml` checks all of
it.

## What is modelled

**The life of a write buffer** (`internal/fusefs/fusefs.go`). A closed, written file is a handle that
is parked with or without a timer, settled, uploaded, kept for a retry, moved to the unsaved folder or
the local store, or dropped, while timers, renames, reopens, unlinks and unmount race for it.
`SaveProtocol` is a step relation with one step for each lock-protected region: any number of files
and handles, uploads, moves and trashes that succeed or fail freely, and a logical clock.
`SaveInvariants` and `SaveRuns` prove its invariant, `SaveSafety` what users and other handlers rely
on, `SaveWalks` that the walk over replaced files ends and `SaveChains` that it misses none,
`SaveReleases` how each Release ends, `SaveRequests` what each request does, `SaveRetries` the backoff
and what is never uploaded, `SaveOwners` what becomes of buffers taken back. `SaveStories` reads the
history of one handle off a run, and `SaveLives` proves from it which uploads skip a delay and what a
lost save went through. `SaveRaces`, `SaveWitness` and `SaveDelays` have the runs that break a promise.
`WriteBuffers` has the same methods as classes that update their fields, and `Buffers` the field
changes both are built from.

**The directory listing cache** (same file). `Listings` holds the pure patches and what a move does
to two listings. `ListingProtocol` interleaves callers of `load`, the one fetch in flight, the disk
copy, handlers' patches and the coalesced writes; `ListingSafety` proves its invariant,
`ListingOrigins` where a base can have come from, `ListingTheorems` that the cache refines "a base
listing plus the patches since", and `ListingLoads` what a load returns. `DirNodes` is the class form,
`moveLink` over one directory or two included.

**The block data path** (`internal/drive`). `Blocks` splits a content into blocks and stores them,
`BlockReads` says what a read gives for any range and any blocks it cannot get, `BlockFile` is the file
that reads and copies, `BlockFetch` interleaves callers of `getBlock` and `BlockCalls` says what each of
them gets, `DiskCache` is the byte-budgeted cache with its eviction and `DiskCacheRaces` its size count
when writes and evictions interleave.

**Smaller parts.** `PngText` (the tEXt writer and reader of `internal/thumbs`, RFC 2083 sections 3.2
and 4.2.7), `Previews` (previews against removals), `DownloadSlots` (the slot discipline of block
downloads) and `ConfigUpgrade` (the config file rewrite). `Sums` and `Wrappers` are helpers.

## Assumptions

- A rename that replaced a file takes that file out of the tree for good, and node and handle
  identities are never used twice.
- The kernel holds an inode locked while it is unlinked or renamed over, so a truncate of the same
  file does not run then.
- Nobody opens a replaced file for writing between `replace` reading its handle and the rename's
  return. `Open` takes no inode lock, so this is not enforced; such an open would give a buffer `replace`
  does not mark, which still uploads.
- An unlink counts as letting a save go as soon as it takes the parked buffer, whether or not the drive
  then trashes the file and the unlink succeeds (fusefs.go:2008-2024).
- A version number stands for the bytes of a buffer: every write and truncate starts a new one.
- Exclude and delay rules are arbitrary functions of the name; uploads, moves, trashes, fetches,
  removals and writes to disk have free outcomes; time is a logical clock and a timer may fire at any
  moment.
- Encryption is any pair of functions in which decrypting undoes encrypting; digests and CRCs are any
  functions.
- A config line is classified by what the two patterns of `Upgrade` match; the lines that explain a
  documented key do not themselves read as a commented default.

## Where the code does not keep its promise

- A rename from an excluded to an ordinary name that overtakes the asynchronous Release of the close
  finds nothing parked to take; the Release then parks the buffer under the name it had read, and
  unmount removes it (`SaveRaces.RenameRacingTheCloseLosesTheSave`). Exactly when unmount keeps a
  parked save is `SaveRaces.UnmountKeepsTheBytesIff`; that a save lost this way was parked under an
  excluded name and renamed since is part of `SaveLives.NoSaveIsLostInAnyRun`. The comment on `abandon`
  promises to keep any save under a name that is not excluded.
- `replace` records the edge to the replaced file before it marks that file's buffer gone. A Release
  that walks the chain in between does not wait for an upload that can still start
  (`SaveRaces.WalkBetweenEdgeAndMarkLetsUploadsOverlap`). For every file passed after its mark, and
  so for all of them when `replace` is one step, the promise holds
  (`SaveSafety.WalkedFileIsNeverSentAgain`, `SaveChains.UploadOverlapsNoneOfTheChain`).
- An upload delay is meant to let the rest of an app's save sequence happen under the new name. A rename
  that finds the timer of the old name already fired has nothing to take back, and the Release uploads
  under the new name at once (`SaveDelays.RenameUnderTheTimerSkipsTheDelay`; exactly then:
  `SaveLives.WaitIsForItsOwnNameIff`).
- A new entry in a directory whose first fetch is under way keeps that fetch's answer out, and the listing
  of this one entry counts as fresh (`ListingTheorems.ColdPutHidesTheFetch`; exactly then:
  `FreshListingIsPartialIff`; the only other way is a new entry right after a first fetch failed:
  `OnlyPublishLeavesPartial`).
- A load is to give the listing or an error. A waiter whose listing expires before it looks, or that looks
  while the next fetch has answered and not published, gets an empty directory and no error
  (`ListingLoads.ExpiryEmptiesALoad`, `ListingLoads.LateWaiterIsEmptied`; exactly then:
  `WaiterGetsNothingIff`).
- A removal from a directory with nothing loaded is forgotten by a fetch already under way
  (`ListingTheorems.ColdRemovalComesBack`; exactly then: `FetchTakesOverIffNotOvertaken`), and its
  coalesced write puts an empty listing over the disk copy
  (`ListingTheorems.ColdRemovalEmptiesTheDiskCopy`; exactly then: `FlushWins`).
- `ReadAt` answers EOF in the middle of a file when a later block of the range cannot be had
  (`BlockReads.FailureCanPassForTheEnd`; exactly then: `EarlyEofIffLaterBlockFails`; never, whatever
  fails, iff the range lies in one block: `NeverEarlyIffOneBlock`). Copying a whole file is safe because
  its reads never span two blocks. A size that is too small is read past unless it falls on a block
  boundary (`ReadsPastSizeIff`).
- The comment on `replace` promises to keep a buffer whose upload already failed for good. An open for
  writing that takes it back after `replace` marked it and before `replace` takes it clears the failure,
  and the writer's close deletes the save (`SaveWitness.OpenBeforeUnparkLosesAFailedSave`; exactly then:
  `SaveOwners.FailedAtMarkIsKeptIff`; an unlink aside it is kept in every other run:
  `SaveSafety.FailedBufferIsKept`).
- The upload of a file renamed over or unlinked meanwhile is to be trashed. It stays on the drive when its
  link was not read back or trashing it fails (`SaveWitness.UnlinkDuringFirstUpload`; exactly then:
  `SaveSafety.NewFileIsLeftBehindIff`).
- An open with O_TRUNC whose truncate fails after it took a parked buffer back leaves that buffer with
  nobody to go on with it (`SaveWitness.FailedTruncateStrandsTheBuffer`; exactly then:
  `SaveOwners.OwnerlessIffTruncateFailed`). It is never uploaded or set aside from there, at unmount
  either; its bytes stay in the temp file (`SaveOwners.StrandedBufferStaysSo`).
- `PutListing` takes the old size outside the lock, and `evict` subtracts the sizes of its walk. The
  running size goes wrong when a listing is written under a running evict
  (`DiskCacheRaces.RewriteDuringEvictMiscounts`), or when two writes of one listing interleave
  (`TwoListingWritesCountTwice`; `persistMu` serialises the writes of one directory object, so this takes
  two of one folder). Exactly which steps miscount is `RenameCountsRightIff` and `RemoveCountsRightIff`;
  schedules without them count right (`CalmSchedulesCountRight`).
- `moveLink` trashes nothing when the lookup of the destination fails. After a move to another directory
  a name can then be listed twice (`Listings.UnansweredLookupCanDuplicateNames`; exactly then:
  `UnansweredMoveAcrossIff`). After a move inside one directory it can exactly when
  `UnansweredMoveWithinIff` says, and not when the directory lists its target or does not list the moved
  link yet (`UnansweredMoveWithinKeepsListing`).

## Model

| member | source | states |
|---|---|---|
| SaveLives.NoSaveIsLostInAnyRun | internal/fusefs/fusefs.go:3315-3470 | in every run of a mount, the bytes of every save whose close returned are in its temp file, or landed on the drive, or are in the unsaved folder or the local store, unless the run has what let them go: a later write of the same buffer, the step of an unlink, of a rename over the file that found its upload not failed for good, an open or rename that took a failed one back after such a mark, or an unmount that found the buffer last parked under an excluded name and either could not store it or found it renamed to a name that is not excluded |
| SaveSafety.NoSaveIsLost | internal/fusefs/fusefs.go:3315-3470 | the same in every reachable state, in terms of what the handle went through |
| SaveLives.PermanentFailureIsKept | internal/fusefs/fusefs.go:2909-2916 | in every run a save whose upload failed in a way no retry fixes is in its temp file or the unsaved folder, unless it was unlinked, until an open or a rename takes it back |
| SaveLives.RunAsks | internal/fusefs/fusefs.go:2008-2024 | a handle counts as unlinked, or renamed over, exactly when the run has the step of an unlink, or of a replacing rename, on it |
| SaveSafety.FailedBufferGoesOnlyByUnlink | internal/fusefs/fusefs.go:2957-2972 | no step removes the temp file of a buffer whose upload failed for good, except an unlink or its move to the unsaved folder |
| SaveSafety.FailedBufferIsKept | internal/fusefs/fusefs.go:2957-2972 | in every run the bytes of a buffer whose upload failed for good, or had when a rename over its file marked it, are in the temp file or the unsaved folder, unless it was unlinked or taken back after that mark |
| SaveOwners.FailedAtMarkIsKeptIff | internal/fusefs/fusefs.go:2323-2328 | once such a buffer's Release is over, with no unlink, its bytes are kept iff nobody took it back between the mark and the rename's own unpark |
| SaveWitness.OpenBeforeUnparkLosesAFailedSave | internal/fusefs/fusefs.go:2603-2613 | a reachable state in which a failed save is gone with no unlink and no later write: an open for writing wins the buffer between the mark and the unpark, and its close deletes it |
| SaveSafety.GoneBufferIsNeverSent | internal/fusefs/fusefs.go:3408-3417 | over any run, a buffer marked gone with no upload on its way never starts one again |
| SaveSafety.GoneUploadIsNeverClaimed | internal/fusefs/fusefs.go:2843-2858 | over any run, an upload of a buffer marked gone before its claim is never claimed and never patched into a listing; of a new file it made, once its Release is over, it is trashed iff its link was read back and the trash did not fail |
| SaveSafety.NewFileIsLeftBehindIff | internal/fusefs/fusefs.go:3470-3489 | a new file an upload created is never both claimed and trashed; it is left on the drive with no name iff it was not claimed and its link was not read back or trashing it failed; it is not claimed only after an unlink or a rename over the file |
| SaveSafety.LostUploadIsTrashedIff | internal/fusefs/fusefs.go:3474-3487 | the region after a lost claim trashes the new file iff the upload returned its link and the trash works |
| SaveWitness.UnlinkDuringFirstUpload | internal/fusefs/fusefs.go:3470-3489 | for every outcome of the lookup and the trash, a reachable state in which an unlink met the first upload: the file is left behind iff not both worked |
| SaveSafety.WalkedFileIsNeverSentAgain | internal/fusefs/fusefs.go:2808-2825 | while a Release is past its walk, no file it passed whose buffer was already marked (or which had none) is being uploaded, and none is in any run from there: the upload of a replaced file neither overlaps nor follows |
| SaveChains.ReleaseWaitsForItsChain | internal/fusefs/fusefs.go:2812-2825 | over every run from the stat of its temp file until it is past its walk, a Release passes every file its own file was renamed over, directly and through one another, as they were when the walk began, up to a file whose edge ended meanwhile |
| SaveChains.WalkCoversTheChain | internal/fusefs/fusefs.go:2812-2825 | the same from any moment of the walk, for the chain then ahead |
| SaveChains.OnlyAClaimEndsAnEdge | internal/fusefs/fusefs.go:2846-2858 | the edge of a file out of the tree ends only with the claim of that file's own upload |
| SaveChains.CutByAClaim | internal/fusefs/fusefs.go:2846-2858 | where the chain a walk met was cut, the run has the claim of an upload of a file on it, before the one not walked |
| SaveChains.UploadOverlapsNoneOfTheChain | internal/fusefs/fusefs.go:2808-2825 | so when the Release uploads, no upload of a file of that chain is in flight, and none starts in any run from there, up to a file whose upload was claimed and but for the files passed before their mark |
| SaveChains.StepKeepsClosed | internal/fusefs/fusefs.go:2820-2823 | in every step, and so in every run, the edge of each file a walk has passed leads to another one it has passed, or to the one ahead |
| SaveSafety.ChainGoesBack | internal/fusefs/fusefs.go:2302-2318 | along the edges from a file to the one it was renamed over, the moment of leaving the tree strictly decreases |
| SaveSafety.ReplacedFilesFormNoCycle | internal/fusefs/fusefs.go:2302-2318 | no run of renames makes a chain of replaced files come back to its start |
| SaveSafety.WalkMakesProgress | internal/fusefs/fusefs.go:2812-2825 | each file a walk passes is one it had not passed before, out of the files there are |
| SaveWalks.WalkEnds | internal/fusefs/fusefs.go:2812-2825 | awaitReplaced ends in every run: whatever happens meanwhile, new files and renames included, from any of its points one walk passes no more files than had left the tree by then |
| SaveSafety.WalkNeverDeadlocks | internal/fusefs/fusefs.go:2812-2825 | whatever a walk waits for can happen now: the lock ahead is free, or about to be freed, or its holder has a next region whatever its upload does |
| SaveWalks.LockAheadIsFreed | internal/fusefs/fusefs.go:2812-2825 | from any reachable state the lock a walk waits for is let go after at most six steps of its holder alone, however its upload turns out |
| SaveSafety.ParkedBufferIsTracked | internal/fusefs/fusefs.go:2860-2880 | between the regions of a taker, a handle is in the delayed set iff parked with a timer and in the kept set iff parked without one; parked means its temp file exists and its node points back at it; parked and failed means kept |
| SaveOwners.OwnerlessIffTruncateFailed | internal/fusefs/fusefs.go:2603-2613 | in every run a buffer ends with nobody to go on with it iff an open took it back and its truncate failed |
| SaveOwners.StrandedBufferStaysSo | internal/fusefs/fusefs.go:2603-2613 | over any run from there it is in neither set and parked for nobody, so no timer, writer or unmount finds it; nothing more is sent, landed or set aside, its temp file stays, and its file cannot be opened afresh for writing |
| SaveWitness.FailedTruncateStrandsTheBuffer | internal/fusefs/fusefs.go:2603-2613 | a reachable state with such a buffer holding a save that landed nowhere |
| SaveInvariants.AdvanceKeeps | internal/fusefs/fusefs.go:3315-3489 | each region of Release, keepForRetry, discard, drop, claim and abandon keeps every clause of the handle invariant, un-marks no buffer, and changes its node only where it may |
| SaveInvariants.TakenKeeps | internal/fusefs/fusefs.go:3004-3077 | settle, unpark by a writer, a rename, an unlink or a replacing rename, and abandon keep the handle invariant |
| SaveInvariants.LeavingKeeps | internal/fusefs/fusefs.go:2302-2329 | a file leaving the tree keeps its handle valid once the handle is captured to be marked |
| SaveRuns.StepKeepsInv | internal/fusefs/fusefs.go:2302-2329 | every step of the mount keeps the whole invariant; what left the tree and what was quiet stays so |
| SaveRuns.RunKeepsInv | internal/fusefs/fusefs.go:2302-2329 | so does every run |
| SaveRuns.WalkStepGoesOn | internal/fusefs/fusefs.go:2812-2825 | the file a walk just passed is quiet unless its mark is still to come, and the next edge leads to an older one |
| SaveRetries.RetriesDoubleUpToTheCap | internal/fusefs/fusefs.go:2882-2927 | in every run the n-th transient failure in a row parks the buffer for min(30 s * 2^(n-1), 30 min), counted afresh after a rename or reopen took it back |
| SaveRetries.OnlyDueAllowedNamesAreUploaded | internal/fusefs/fusefs.go:3369-3383 | in no run is an upload tried under a name its Release read as excluded, nor under a name with an upload delay unless the Release found the buffer due |
| SaveLives.OnlyTimersSkipTheDelay | internal/fusefs/fusefs.go:3004-3016 | in every run an upload tried under a name with a delay was let through by the timer (or unmount's flush) and nothing else took the buffer since; what that ended was the delay of the name the buffer was parked under, or the wait after n failures in a row |
| SaveLives.WaitIsForItsOwnNameIff | internal/fusefs/fusefs.go:3356-3383 | the name it is tried under is the one the buffer was parked under iff the file was not renamed between the two Releases' reads of its name, or was renamed back |
| SaveLives.TimerHasItTried | internal/fusefs/fusefs.go:3004-3016 | a timer that fires on a parked buffer has it tried, not parked for a delay again, unless it is gone or its name is excluded by then |
| SaveDelays.RenameUnderTheTimerSkipsTheDelay | internal/fusefs/fusefs.go:3356-3383 | for any two delayed names, a reachable state in which an upload is tried under the second while only the first one's delay was waited out: a rename overtakes the timer |
| SaveReleases.AcceptedRelease | internal/fusefs/fusefs.go:3411-3529 | a Release whose upload the drive takes, regions run in order: the file has the link read back and loses its edge, the version is on the drive, and the buffer is deleted and let go of |
| SaveReleases.RefusedRelease | internal/fusefs/fusefs.go:2897-2927 | one whose upload is refused keeps its bytes in the temp file and parks: with no timer and marked failed when no retry can help, else with the next wait of the backoff |
| SaveReleases.RefusedAtUnmount | internal/fusefs/fusefs.go:2903-2907 | while unmount closes it is set aside instead, whatever the refusal |
| SaveReleases.UnreadableRelease | internal/fusefs/fusefs.go:3395-3428 | a temp file that cannot be read parks for the next wait with nothing sent |
| SaveReleases.ParkedRelease | internal/fusefs/fusefs.go:3369-3383 | a written buffer under an excluded name, or with a delay to wait out, is parked, with no timer or for exactly that delay, and nothing is sent |
| SaveReleases.UnwrittenRelease | internal/fusefs/fusefs.go:3385-3388 | one nobody wrote is deleted and nothing is sent |
| SaveReleases.GoneRelease | internal/fusefs/fusefs.go:3363-3367 | a buffer marked gone is deleted, or set aside when its upload had failed for good |
| SaveReleases.GoneAtTheLock | internal/fusefs/fusefs.go:3411-3417 | marked by the time it has the lock, it is deleted with nothing sent |
| SaveReleases.GoneAndRefused | internal/fusefs/fusefs.go:2898-2901 | marked while a refused upload ran, it is deleted and not tried again |
| SaveReleases.GoneAndAccepted | internal/fusefs/fusefs.go:3474-3487 | marked while an accepted upload ran, the file takes neither link nor edge of it, and the upload is trashed iff it made a new file, its link was read back and the trash works |
| SaveReleases.ClaimedIsPatchedIff | internal/fusefs/fusefs.go:3491-3529 | a claimed upload goes into its directory's listing iff its link was read back and the file was not renamed since its Release read the name, or the drive moves the upload there |
| SaveReleases.RegionsAreARun | internal/fusefs/fusefs.go:3315-3531 | these sequences of regions are runs of the mount that touch one handle and its file |
| SaveRequests.TakenIff | internal/fusefs/fusefs.go:3004-3077 | a parked buffer can be taken by a writer, a rename, an unlink, a rename over it that has marked it, its timer if it has one, unmount once closing; one not parked by nobody |
| SaveRequests.TakenGoesTo | internal/fusefs/fusefs.go:3004-3077 | one region later it is in neither set, in the hands of whoever took it, dirty and its backoff reset for a writer or a rename, due for a timer, clean for an unlink or a rename over the file |
| SaveRequests.CloseSavesIff | internal/fusefs/fusefs.go:3385-3388 | a close of a handle just opened uploads nothing, that of a file just created does, written or not |
| SaveRequests.WriteThenCloseSaves | internal/fusefs/fusefs.go:3278-3299 | a write makes a new version and the close saves that |
| SaveRequests.TruncateReachesTheBuffer | internal/fusefs/fusefs.go:3229-3241 | a truncate makes a new, dirty version of an open or a parked buffer alike |
| SaveRequests.UnlinkPendingIff | internal/fusefs/fusefs.go:2832-2841 | an unlink marks exactly the buffer of a file not on the drive yet, and changes nothing else |
| SaveRequests.RenameOverMarks | internal/fusefs/fusefs.go:2302-2329 | a rename over a file takes it out of the tree later than all before it, makes the renamed file wait for it, and its mark reaches the handle the file had |
| Buffers.BackOffIsNextWait | internal/fusefs/fusefs.go:2920-2923 | one more failure moves the wait to the next of that series |
| SaveRaces.RenameRacingTheCloseLosesTheSave | internal/fusefs/fusefs.go:3356-3376 | a reachable state in which a save is gone with no unlink, no rename over it and no later write: a rename to a name that is not excluded overtakes the close of an excluded one, and unmount drops the buffer it finds parked with no timer |
| SaveRaces.UnmountKeepsTheBytesIff | internal/fusefs/fusefs.go:3050-3077 | unmount keeps a parked save exactly when it waited with a timer, or its upload failed for good, or there is a store, its name is excluded now and the move works |
| SaveRaces.WalkBetweenEdgeAndMarkLetsUploadsOverlap | internal/fusefs/fusefs.go:2316-2328 | a reachable state with two uploads for one name at once: a Release walks after replace recorded the edge and before it marked the other buffer gone |
| SaveRaces.EarlyWalkCanOverlap | internal/fusefs/fusefs.go:2316-2328 | from any reachable state where a walk passed a file before its mark and both are at their locks, the file still not marked, both uploads can run at once |
| WriteBuffers.MountState.FlushDelayed | internal/fusefs/fusefs.go:748-773 | unmount offers every delayed buffer to the drive, not gone and under a name not excluded, a second time exactly when the first refusal may be retried and the deadline has not come; it is on the drive iff the last answer was an acceptance, and set aside iff it was a refusal; the timerless ones are set aside, stored or deleted as their failure, name and the store say; both sets end empty |
| WriteBuffers.MountState.SettleDelayed | internal/fusefs/fusefs.go:791-812 | every handle parked with a timer is deleted if gone, parked with no timer under an excluded name, and otherwise tried exactly once, ending as the drive's answer says; no other handle changes |
| WriteBuffers.MountState.AbandonKept | internal/fusefs/fusefs.go:814-831 | every parked buffer is let go of, set aside, stored or deleted as its timer, failure, name and the store say; no other handle changes |
| WriteBuffers.FileHandle.Release | internal/fusefs/fusefs.go:3315-3489 | the outcome of a Release for each case in its order: gone, excluded, delayed, unwritten; otherwise the drive is asked once, and an acceptance leaves the bytes on the drive, the file with its new link and no edge, or deleted and the file as it was when gone meanwhile; a refusal deletes when gone, sets aside while closing, and else parks, with no timer and failed iff no retry can help, or for the next wait |
| WriteBuffers.FileHandle.Park | internal/fusefs/fusefs.go:2860-2880 | the buffer waits, in the set its timer says |
| WriteBuffers.FileHandle.KeepForRetry | internal/fusefs/fusefs.go:2897-2927 | gone deletes, closing sets aside, a permanent failure parks with no timer and marks, any other parks for the next wait of the backoff |
| WriteBuffers.FileHandle.Discard | internal/fusefs/fusefs.go:2962-2972 | a gone buffer is set aside iff its upload had failed for good, and deleted otherwise |
| WriteBuffers.FileHandle.Drop | internal/fusefs/fusefs.go:2976-2980 | the temp file is removed and the node lets go of the handle |
| WriteBuffers.FileHandle.Detach | internal/fusefs/fusefs.go:2984-3000 | the node loses its handle only when it is this one |
| WriteBuffers.FileHandle.KeepUnsaved | internal/fusefs/fusefs.go:3083-3094 | the bytes end in the unsaved folder when moves work now, where they were when not |
| WriteBuffers.FileHandle.KeepLocal | internal/fusefs/fusefs.go:3164-3183 | the bytes end in the local store when moves work now, deleted when not |
| WriteBuffers.FileHandle.Unpark | internal/fusefs/fusefs.go:3018-3043 | exactly one taker gets a parked buffer; taken back dirty it starts its backoff over |
| WriteBuffers.FileHandle.Settle | internal/fusefs/fusefs.go:3004-3016 | nothing happens to a buffer something took first; otherwise a gone one is deleted, one under an excluded name is parked with no timer, and any other is offered to the drive at once, with the outcomes of Release for the bytes, the link and the edge |
| WriteBuffers.FileHandle.Abandon | internal/fusefs/fusefs.go:3050-3077 | out of both sets, and set aside, moved to the store or deleted as its timer, failure and name, the store and the move say |
| WriteBuffers.FileNode.Claim | internal/fusefs/fusefs.go:2846-2858 | exactly when the buffer is not gone, the node drops its edge and takes the upload's link if that is known |
| WriteBuffers.FileNode.UnlinkPending | internal/fusefs/fusefs.go:2832-2841 | only a file not on the drive with a handle is marked, and only marked |
| WriteBuffers.FileNode.AwaitReplaced | internal/fusefs/fusefs.go:2812-2825 | over the edges the mount's renames made, the loop passes exactly the chain of replaced files, in order, and terminates |
| WriteBuffers.MountState.Create | internal/fusefs/fusefs.go:1976-1995 | a new file with its write handle joins the mount, which stays consistent and ordered |
| WriteBuffers.MountState.Replace | internal/fusefs/fusefs.go:2302-2329 | a destination that is another file leaves the tree later than all before it, the source waits for it, its buffer is marked gone and taken back clean iff it was parked; otherwise nothing changes |
| Listings.UpsertNode | internal/fusefs/fusefs.go:1839-1853 | the loop computes the listing with its first match overwritten, or one entry more |
| Listings.RemoveNode | internal/fusefs/fusefs.go:1856-1869 | the first entry of that name is returned and gone; none returned means no entry has the name |
| Listings.UpsertKeepsDistinctIff | internal/fusefs/fusefs.go:1835-1853 | an upsert keeps a listing free of duplicate names and links if and only if no two different entries hold the new link and the new name |
| Listings.UpsertContents | internal/fusefs/fusefs.go:1839-1853 | the new entry is there, entries it does not match stay, nothing else comes in |
| Listings.RemoveKeepsDistinct | internal/fusefs/fusefs.go:1856-1869 | a removal keeps a listing free of duplicates and takes away exactly that name |
| Listings.MoveAcrossKeepsListings | internal/fusefs/fusefs.go:2202-2225 | with an answered lookup both listings stay free of duplicates; the old one is what it was without the old name, the new one what it was without the trashed name, with the moved entry put in |
| Listings.MoveWithinKeepsListing | internal/fusefs/fusefs.go:2202-2225 | the same for a rename inside one directory |
| Listings.UnansweredMoveAcrossIff | internal/fusefs/fusefs.go:2202-2225 | without an answer, a move across directories keeps the source free of duplicates, and the destination iff no two of its entries hold the moved link and the new name between them |
| Listings.UnansweredMoveWithinIff | internal/fusefs/fusefs.go:2202-2225 | without an answer, a move inside one directory keeps the listing free of duplicates iff, once the old name is out, no two entries hold the moved link and the new name between them; it then lists the new name once with the moved link |
| Listings.UnansweredMoveWithinKeepsListing | internal/fusefs/fusefs.go:2202-2225 | so it does whenever the directory lists its target, or does not list the moved link yet, as after an upload |
| Listings.UnansweredLookupCanDuplicateNames | internal/fusefs/fusefs.go:2202-2212 | a directory that lists the moved file under another name and a different one under the new name: without an answer from the lookup the new name is then listed twice |
| ListingTheorems.ListingIsBaseWithPatches | internal/fusefs/fusefs.go:1564-1590 | a loaded listing always equals its base with exactly the patches landed since that base began, in order; the base is what a fetch returned, or the copy the mount found on disk, or the empty one a cold removal's write put over that, or the empty list |
| ListingTheorems.FetchTakesOverIffNotOvertaken | internal/fusefs/fusefs.go:1564-1590 | a fetch that comes back replaces the listing if and only if every patch since it began was a removal from a directory with nothing loaded |
| ListingTheorems.UndisturbedFetchIsPublished | internal/fusefs/fusefs.go:1598-1638 | a fetch no patch meets publishes its result under the generation it began at |
| ListingTheorems.LoadedStaysLoaded | internal/fusefs/fusefs.go:1574-1590 | a loaded listing is never lost, whatever fails |
| ListingTheorems.PatchStaysListed | internal/fusefs/fusefs.go:1801-1814 | an entry a handler put in stays listed until a patch about it or a later fetch |
| ListingTheorems.RemovalStaysUnlisted | internal/fusefs/fusefs.go:1817-1833 | a name removed while it was listed at most once stays away likewise |
| ListingTheorems.AtMostOneFetchInFlight | internal/fusefs/fusefs.go:1542-1557 | for any number of callers, loading is set to a channel iff that channel's fetch has not published, so at most one is in flight |
| ListingTheorems.ChannelIsClosedOnce | internal/fusefs/fusefs.go:1574-1638 | each done channel is closed exactly once; until then its fetch's next region is never held up and brings the close nearer |
| ListingTheorems.WaiterIsWoken | internal/fusefs/fusefs.go:1447-1484 | a waiter goes on after at most four regions of its fetch, on success and failure alike |
| ListingTheorems.DiskCopyIsRefreshed | internal/fusefs/fusefs.go:1486-1520 | serving the disk copy starts a fetch, and in every run until that fetch publishes every caller that comes to beginLoad waits for it |
| ListingLoads.ColdLoadServesTheDiskCopy | internal/fusefs/fusefs.go:1500-1519 | from every state with nothing loaded and no fetch under way, a load alone that can read a disk copy returns that copy; the listing is it, with a base from disk, stale, and a fetch just spawned is the one in loading |
| ListingLoads.ColdLoadWithoutCopyFetches | internal/fusefs/fusefs.go:1447-1484 | with no copy, or none it can read, it spawns a fetch, loads nothing and waits for that |
| ListingLoads.WarmLoad | internal/fusefs/fusefs.go:1447-1484 | a load of a fresh listing returns it; any other waits for the fetch under way or spawns its own |
| ListingLoads.UndisturbedWaiter | internal/fusefs/fusefs.go:1526-1540 | a waiter whose fetch nothing interrupts gets what it listed; on a failure the listing there was, and with none the error |
| ListingLoads.WaiterGetsNothingIff | internal/fusefs/fusefs.go:1526-1540 | a waiter gets an empty directory and no error iff the last fetch to answer was a good one and the listing is stale or absent as it looks; otherwise the listing, or with none the error |
| ListingLoads.ExpiryEmptiesALoad | internal/fusefs/fusefs.go:1526-1540 | for any listing, a reachable state in which a waiter of a good fetch gets nothing and no error, because the listing expired before it looked |
| ListingLoads.LateWaiterIsEmptied | internal/fusefs/fusefs.go:1526-1540 | and one in which a waiter of a failed fetch does, because the next fetch has answered and not published yet |
| ListingTheorems.DiskIsBaseWithPatches | internal/fusefs/fusefs.go:1684-1706 | the listing on disk, if it was not evicted, is a base of those origins with exactly the patches up to the generation it was written at, the last one tried unless that write failed; no run takes a tried generation back, nor does it pass gen |
| ListingTheorems.FlushWins | internal/fusefs/fusefs.go:1734-1758 | a coalesced write is never dropped for an older generation; when the disk takes it, it leaves there what was in memory iff anything was loaded, and the old copy stays when not |
| ListingTheorems.TrackedWhileArmed | internal/fusefs/fusefs.go:1719-1784 | a directory is in dirtyListings iff its timer is armed outside a flush, and at least then during one |
| ListingTheorems.QuietDirectoryIsOnDisk | internal/fusefs/fusefs.go:1708-1758 | with nothing left to do and no write cancelled, a write at the last patch was tried, and unless it failed the disk copy, if not evicted, holds every patch |
| ListingTheorems.FlushPutsTheListingOnDisk | internal/fusefs/fusefs.go:1734-1758 | a flush with nothing else running leaves the in-memory listing on disk, when the disk takes it, and nothing waiting |
| ListingTheorems.ColdRemovalComesBack | internal/fusefs/fusefs.go:1564-1582 | a reachable state listing an entry removed while nothing was loaded |
| ListingTheorems.ColdRemovalEmptiesTheDiskCopy | internal/fusefs/fusefs.go:1734-1748 | a reachable state in which such a removal's write put an empty listing over a good disk copy |
| ListingTheorems.FreshListingIsPartialIff | internal/fusefs/fusefs.go:1574-1590 | a fetch that comes back leaves up as fresh a listing of nothing but local changes iff one was put into the empty directory, no fetch took over since, and this one failed or was overtaken |
| ListingTheorems.ColdPutHidesTheFetch | internal/fusefs/fusefs.go:1805-1814 | for any entry and any answer, a reachable state in which a put during the first fetch keeps its answer out and the one entry counts as fresh |
| ListingSafety.StepKeepsInv | internal/fusefs/fusefs.go:1491-1833 | every region of load, finishLoad, the patches and the writes keeps listing, fetches, disk copy and tracking consistent |
| DirNodes.DirNode.UpsertChild | internal/fusefs/fusefs.go:1805-1814 | the new state is the patch landed, the timer armed, the directory tracked |
| DirNodes.DirNode.RemoveChild | internal/fusefs/fusefs.go:1817-1833 | the same for a removal, and which entry went |
| DirNodes.DirNode.BeginLoad | internal/fusefs/fusefs.go:1544-1557 | exactly one of: a fresh listing, a fetch of one's own, a channel to wait on |
| DirNodes.DirNode.Publish | internal/fusefs/fusefs.go:1574-1590 | the new state is publish's, and the channel is closed |
| DirNodes.DirNode.FinishLoad | internal/fusefs/fusefs.go:1598-1638 | whatever patches land while the fetch runs, the listing is publish's of them and the error is that of this fetch; a success is written at the generation the fetch began at, a failure leaves the disk alone, and waiters are woken either way |
| DirNodes.DirNode.PersistListing | internal/fusefs/fusefs.go:1688-1706 | an older generation is dropped, any other written, and kept when the disk takes it |
| DirNodes.DirNode.FlushListing | internal/fusefs/fusefs.go:1734-1758 | when a write was waiting, the listing is on disk if that takes it; nothing changes otherwise |
| DirNodes.DirNode.DiscardListing | internal/fusefs/fusefs.go:1761-1770 | a waiting write is cancelled, the listing kept |
| DirNodes.MountState.FlushListings | internal/fusefs/fusefs.go:1788-1799 | every directory that was dirty has its in-memory listing on disk, if that takes it; no other is touched, none stays dirty |
| DirNodes.MountState.AddDir | internal/fusefs/fusefs.go:2394-2400 | a directory joins the mount with what is on disk, nothing loaded |
| DirNodes.DirNode.MoveLink | internal/fusefs/fusefs.go:2185-2225 | what the lookup found is trashed iff it is a link other than the one moved, and the move goes on iff that worked or was not needed; after a failed trash, or a failed move with nothing trashed, both directories are as they were, after a trash whose move fails the new one is without the name it took away; after a move, both listings over one directory or two, and with an answered lookup and no duplicates before, none after |
| DirNodes.MovedKeepsListings | internal/fusefs/fusefs.go:2185-2225 | the same as a statement about the listings alone |
| Blocks.OffsetInItsBlock | internal/drive/file.go:579-587 | an offset lies inside the block it is said to fall in |
| Blocks.BlocksAreFullButTheLast | internal/drive/write.go:289-318 | every block but the last is full, none is empty, and the last one ends where the content does |
| Blocks.BlocksJoinToContent | internal/drive/write.go:289-318 | all blocks in order are the content |
| Blocks.HoldsOneContent | internal/drive/write.go:289-318 | stored blocks determine the content |
| Blocks.UploadBlock | internal/drive/write.go:320-369 | the piece is stored encrypted under the next number iff the storage takes it |
| Blocks.UploadBlocks | internal/drive/write.go:289-318 | it works iff none of its reads fails, one more than the full blocks, and no block is refused; the blocks stored then hold exactly the content, and sizes and digests match them in order |
| Blocks.BlockManifest | internal/drive/write.go:421-427 | the manifest is the digests in order |
| Blocks.ManifestHoldsInOrder | internal/drive/write.go:419-427 | the manifest holds each digest right behind those of the blocks before it |
| Blocks.ManifestDeterminesDigests | internal/drive/write.go:419-427 | two uploads share a manifest only if they share every digest |
| BlockFile.PutKeepsValid | internal/drive/file.go:462-477 | the order list keeps no duplicates, names exactly the cached blocks, at most four |
| BlockFile.NewestBlocksStay | internal/drive/file.go:462-477 | eviction is first in first out: a block stays while fewer than four newer ones come in |
| BlockFile.File.CachePut | internal/drive/file.go:462-477 | the method changes the cache as that says |
| BlockFile.File.GetBlock | internal/drive/file.go:314-337 | it gives the block iff the block is in memory, or is one of the file's and the fetch works; a failure changes nothing |
| BlockFile.File.ReadAt | internal/drive/file.go:242-284 | for any size and any set of blocks it cannot get, with other readers changing the cache between its blocks: the bytes are the content's at that offset, and their count and the error are exactly ReadResult of the range and the set; a negative offset fails |
| BlockReads.EarlyEofIffLaterBlockFails | internal/drive/file.go:258-264 | for all lengths, sizes, offsets and failing sets, a read says EOF short of the bytes there are iff it can get its first block and cannot get a later one it needs |
| BlockReads.EarlyEofGivesBytesBefore | internal/drive/file.go:258-264 | it then gives exactly the bytes before the first block it cannot get |
| BlockReads.NeverEarlyIffOneBlock | internal/drive/file.go:258-264 | no failing set can cause that iff what the read can give lies in one block |
| BlockReads.FailureIsReportedIff | internal/drive/file.go:258-264 | a read reports a failure iff it cannot get its first block, or there is no such block |
| BlockReads.UndisturbedRead | internal/drive/file.go:242-284 | with every block to be had it gives min(len, length - off) bytes, and EOF iff that is less than asked |
| BlockReads.ReadsPastSizeIff | internal/drive/file.go:247-283 | some read goes past an under-reported size iff that size is not on a block boundary |
| BlockReads.FailureCanPassForTheEnd | internal/drive/file.go:258-264 | a read from the start over the first boundary whose second block fails gives the first block and EOF |
| BlockReads.DownloadReadsStayInOneBlock | internal/fusefs/fusefs.go:2737-2741 | a read of the download buffer at a multiple of its size never says EOF early, for any failing set |
| BlockFile.DownloadInto | internal/fusefs/fusefs.go:2730-2754 | it works iff every buffer it reads can be had and written, counted up to the one that reaches size; the temp file is then the content up to there, all of it when size is not too small |
| BlockFile.File.CorrectSizeFromBlocks | internal/drive/file.go:290-308 | it succeeds iff the file is empty, its last block is in memory or the fetch works, and then gives the content's length |
| BlockFile.LastBlock | internal/drive/file.go:295-300 | the loop finds the largest block number |
| BlockFile.WriteReadRoundTrip | internal/drive/write.go:289-318 | what an upload stored reads back: exactly the bytes there are, EOF iff short, whatever the reader takes the content to be |
| BlockFetch.OneFetchPerBlock | internal/drive/file.go:314-371 | no two fetches of one block run at once |
| BlockFetch.RecordIsClosedOnce | internal/drive/file.go:353-371 | each claim record is closed exactly once, by the caller that claimed it, which nothing holds up |
| BlockFetch.NoWaiterIsStranded | internal/drive/file.go:324-337 | a waiter's record is closed or its owner is on its way to closing it |
| BlockFetch.ReturnedBytesAreTheBlock | internal/drive/file.go:314-343 | any data a call returns or the cache holds is that block's plaintext, under arbitrary failures |
| BlockCalls.CachedBlockIsServed | internal/drive/file.go:314-322 | a caller that asks for a cached block returns its plaintext and makes no record; any other has missed it |
| BlockCalls.MissedBlockIsClaimedIff | internal/drive/file.go:356-365 | a caller that missed a block fetches it under a new record iff nobody does, and else waits on the record there is |
| BlockCalls.OwnerGetsTheBlockIff | internal/drive/file.go:367-376 | with nothing between its regions the owner of a claim returns the block, and has cached it, iff its fetch works and the file has the block; the claim is gone and the record closed either way |
| BlockCalls.WaiterFailsAtOnceIff | internal/drive/file.go:324-333 | a waiter of a closed record fails at once iff the fetch it waited for came back with nothing |
| BlockCalls.WokenGetsTheBlockIff | internal/drive/file.go:334-337 | otherwise it returns the block's plaintext iff the block is cached as it looks |
| BlockCalls.WaiterSharesTheFetch | internal/drive/file.go:314-371 | an owner and a waiter with nothing else between them both return the block iff the one fetch works and the file has it |
| BlockFetch.CacheStaysSmall | internal/drive/file.go:462-477 | at most four cached blocks in every reachable state, the order list their keys without duplicates |
| BlockFetch.StepKeepsInv | internal/drive/file.go:314-371 | every region of getBlock keeps claims, records, callers and cache consistent |
| DiskCache.BlockCache.constructor | internal/drive/cache.go:40-93 | the size is the total of the files found, temp files left out |
| DiskCache.BlockCache.Read | internal/drive/cache.go:137-152 | a hit gives the bytes put for the key last and makes it, when its times can be set, the file used last; a miss and a failed read change nothing |
| DiskCache.LatestIsLast | internal/drive/cache.go:325-344 | the file used last is the last one an eviction comes to |
| DiskCache.BlockCache.Put | internal/drive/cache.go:184-217 | a write that works replaces the file and then evicts as Evict does, one that fails changes nothing; size equals the total of the files that count |
| DiskCache.BlockCache.Evict | internal/drive/cache.go:310-356 | for any set of files that cannot be removed, what went is the shortest oldest-first prefix, those skipped, that gets within the limit, or all that could go; temp files stay |
| DiskCache.BlockCache.Remove | internal/drive/cache.go:346-353 | a removal takes its file and its bytes off the size, a failed one changes nothing |
| DiskCache.ByAge | internal/drive/cache.go:325-344 | the files that count, each once, longest unused first |
| DiskCache.EvictingEnds | internal/drive/cache.go:346-353 | with every file removable the walk ends within the limit, at the shortest prefix that gets there |
| DiskCache.WithoutKeeps | internal/drive/cache.go:325-353 | an eviction leaves temp files and the files it cannot remove, and changes none it leaves |
| DiskCacheRaces.CalmSchedulesCountRight | internal/drive/cache.go:263-356 | from whatever files the cache opened on, in every interleaving in which no listing is renamed or removed between another write's stat of it and the end of that write, and none is renamed between an evict's walk and its removal, the size is the total of the files whenever no listing write is half way |
| DiskCacheRaces.RenameCountsRightIff | internal/drive/cache.go:289-303 | with the size balanced against what writes still owe it, a listing's rename leaves it so iff the file replaced is as long as its stat saw |
| DiskCacheRaces.RemoveCountsRightIff | internal/drive/cache.go:346-353 | and an evict's removal does iff the file is as long as its walk saw |
| DiskCacheRaces.OtherStepsCountRight | internal/drive/cache.go:199-356 | and every other step always does; of those only a block write touches a file, its own, and leaves it with its bytes |
| DiskCacheRaces.BalancedIsTotal | internal/drive/cache.go:263-356 | balanced means size equals the total once no listing write is half way |
| DiskCacheRaces.BlockWritesCountRight | internal/drive/cache.go:199-217 | with blocks alone the size is the total in every interleaving, from whatever files the cache opened on |
| DiskCacheRaces.TwoListingWritesCountTwice | internal/drive/cache.go:289-303 | a run in which one listing is counted twice |
| DiskCacheRaces.RewriteDuringEvictMiscounts | internal/drive/cache.go:289-353 | a run with one write of a listing after the other, the second under a running evict: no file is left and the size is the difference of their lengths |
| PngText.FindIEND | internal/thumbs/thumbs.go:270-284 | the loop computes the walk's answer |
| PngText.IendIffPng | internal/thumbs/thumbs.go:270-284 | an IEND is found if and only if the bytes are a signature, whole chunks and IEND |
| PngText.EncodeTextChunk | internal/thumbs/thumbs.go:287-305 | length, type, keyword, NUL, value and CRC, for keywords of 1 to 79 bytes and no others |
| PngText.InsertPNGText | internal/thumbs/thumbs.go:249-267 | the chunks go in just before IEND; it fails exactly when there is none or a keyword is bad |
| PngText.InsertKeepsPng | internal/thumbs/thumbs.go:249-267 | for any keywords and values it can write, the result is a PNG with the same chunks, the text after them, and the same end |
| PngText.ReadPNGText | internal/thumbs/thumbs.go:215-245 | the loop computes the walk's answer on any bytes |
| PngText.ReadIsFirstValue | internal/thumbs/thumbs.go:215-245 | on a PNG that is the value of the first tEXt chunk with the keyword |
| PngText.TextReadsBackIff | internal/thumbs/thumbs.go:287-305 | a text chunk reads back iff its keyword holds no NUL and its data is at most 64 KiB |
| PngText.InsertReadRoundTrip | internal/thumbs/thumbs.go:215-267 | a keyword the file had reads as before, any other as the first value put in for it that fits the reader's 64 KiB, when no keyword put in holds a NUL |
| Previews.NoPreviewOutlivesItsRemoval | internal/fusefs/previews.go:109-140 | however writeThumb and removeChild interleave, once all returned no preview is left for a name whose last listing change was a removal |
| Previews.RemovalCounts | internal/fusefs/fusefs.go:1817-1833 | a removal from a duplicate-free listing counts as that until the name is listed again |
| Previews.PreviewStaysIffListed | internal/fusefs/previews.go:109-140 | in a listing without duplicates, the look after a write leaves the preview iff the job's link is listed under the job's name, and its removal goes otherwise |
| Previews.WriteMakesThePreview | internal/fusefs/previews.go:109-118 | a write that works leaves a preview of its name, and the look still to come |
| Previews.PreviewGoesOnlyBy | internal/fusefs/previews.go:109-140 | a preview goes only by that look's removal, or by a removeChild, of its own name |
| Previews.AddListsTheEntry | internal/fusefs/fusefs.go:1805-1814 | an entry put in is listed, and no entry of another link and name comes or goes with it |
| Previews.RemovalTakesItsName | internal/fusefs/fusefs.go:1817-1833 | a removal takes one entry of its name off the listing when there is one, nothing else, and no preview yet |
| Previews.StepKeepsInv | internal/fusefs/previews.go:109-140 | every region leaves a preview of a removed name with a call that will still remove it |
| DownloadSlots.HeldSlotsAreAttempts | internal/drive/http.go:173-185 | held slots are exactly the fetches inside an attempt and never exceed the cap |
| DownloadSlots.AttemptsAreBounded | internal/drive/http.go:128-140 | at most four attempts, eight with the one retry after a 401 |
| DownloadSlots.AnswerLeadsTo | internal/drive/http.go:185-226 | in every reachable state an answer gives the slot back and counts an attempt; the fetch waits to try again iff it is a 429, a 503 or none, before the fourth attempt, with its caller there; it refreshes its token iff it is the first round's 401; it returns otherwise |
| DownloadSlots.RetriesInARow | internal/drive/http.go:173-226 | answers worth a retry take it through as many attempts, up to four, with the slots as they were |
| DownloadSlots.FourthAttemptIsTheLast | internal/drive/http.go:196-203 | after three such answers the fourth ends the round, whatever it is |
| DownloadSlots.SecondRoundIsTheLast | internal/drive/http.go:128-140 | a refreshed token starts a second round from its first attempt, a failed refresh ends the fetch, and so does the second round's 401 |
| DownloadSlots.LeavesWhileWaitingIff | internal/drive/http.go:176-222 | a caller can leave iff its fetch waits, between attempts or for a slot, and no slot count changes with it |
| DownloadSlots.SlotsComeBack | internal/drive/http.go:125-127 | a fetch that cannot get a slot gets one once some attempt, which exists, is answered |
| DownloadSlots.NoLimitNeverBlocks | internal/drive/drive.go:64-89 | with n <= 0 nobody waits for a slot |
| DownloadSlots.StepKeepsInv | internal/drive/http.go:173-226 | every step keeps the slot count and the attempt count |
| DownloadSlots.Client.AcquireDownload | internal/drive/drive.go:77-89 | a slot iff there is no limit, or one is free and the caller does not give up; one more is held then |
| DownloadSlots.Client.GetRawRetrying | internal/drive/http.go:173-226 | for any answers and any moments at which the caller leaves: every attempt before the last was a 429, a 503 or none; it stops exactly at the fourth, at another answer, when it cannot have a slot or when its caller is gone; slots are back; the window is touched iff it gives up on a 429 or 503 with its caller there |
| DownloadSlots.Client.GetRawSlotted | internal/drive/http.go:128-140 | a second round iff the first ended in a 401 and the token was refreshed, whose answer it then returns; a fetch that got its body never touched the window |
| ConfigUpgrade.Upgrade | internal/config/init.go:175-235 | the loops compute the upgraded file, the keys added and the keys removed, and it writes iff there is either |
| ConfigUpgrade.DropStale | internal/config/init.go:186-208 | the pass with its stack and its skipBlank flag |
| ConfigUpgrade.PassIsSurviving | internal/config/init.go:186-208 | that pass drops exactly the stale defaults, a blank line right below one, and the comments right above one |
| ConfigUpgrade.UpgradeIsIdempotent | internal/config/init.go:175-235 | a second Upgrade changes nothing |
| ConfigUpgrade.UpgradeKeepsSettings | internal/config/init.go:168-209 | every line neither comment nor blank and every documented default stays, in order, and exactly the missing defaults follow |
| ConfigUpgrade.EveryKeyIsPresent | internal/config/init.go:211-220 | every documented key is set or listed |
| ConfigUpgrade.AddedIff | internal/config/init.go:211-220 | a documented key's block is added iff no line of the file sets it or lists it as a default |
| ConfigUpgrade.RemovedIff | internal/config/init.go:189-208 | the keys reported removed are exactly those of commented defaults the program does not document |
| ConfigUpgrade.BlockLines | internal/config/init.go:277-283 | an added block is its explanation line by line, a separator, the default commented out, a blank line |
| ConfigUpgrade.AddedBlocksStandApart | internal/config/init.go:226-235 | the blocks follow the old text as it was with its last line ended, below one blank line and never two, and are the file when there was no text |
| ConfigUpgrade.UpgradedIsFile | internal/config/init.go:226-235 | every line of the result but the last ends in a newline |
| ConfigUpgrade.NoStaleDefaultIsLeft | internal/config/init.go:189-208 | no commented default of an unknown key is left |
| ConfigUpgrade.WriteMissing | internal/config/init.go:211-220 | the blocks of the missing keys, in the documented order |

## Left out

- WriteBuffers.FileHandle.Release: one handler at a time, so the gone check repeated under uploadMu, the upload queue and the stat of the temp file are in SaveProtocol only.
- WriteBuffers.MountState.SettleDelayed: settles run one after another, not as goroutines; SaveProtocol interleaves them.
- SaveLives.NoSaveIsLostInAnyRun: does not model two mounts on one drive, or a save lost because the drive itself lost it. A revision uploaded to a link that a failed move trashed meanwhile counts as landed (fusefs.go:2227-2234).
- SaveSafety.NoSaveIsLost: its excuses are marks on the handle; what in the run put them there is SaveLives.NoSaveIsLostInAnyRun, with the same limits.
- SaveRetries.OnlyDueAllowedNamesAreUploaded: says nothing of what makes a buffer due; SaveLives.OnlyTimersSkipTheDelay does.
- SaveSafety.WalkedFileIsNeverSentAgain: opens of the replaced file before the rename returns are left out, as the assumption says.
- SaveSafety.WalkMakesProgress: one step of the walk; the bound over runs is SaveWalks.WalkEnds.
- SaveSafety.FailedBufferGoesOnlyByUnlink: one step; over runs it is SaveSafety.FailedBufferIsKept.
- SaveSafety.WalkNeverDeadlocks: the wait for the upload semaphore is one of the free outcomes of a region, and no fair scheduler is assumed.
- SaveWalks.LockAheadIsFreed: gives the steps that free the lock, not that a scheduler takes them.
- BlockFile.File.GetBlock: the claim and its waiters are BlockFetch; here other readers may change the cache between the blocks of a read, and a waiter that finds the result evicted is one of the failures.
- DirNodes.DirNode.MoveLink: the lookup of the destination is a parameter, because what it found and what the listing holds when the patch lands can differ; the way back of unlinkTrashed is left out.
- DirNodes.DirNode.BeginLoad: time is the one bit whether the listing is still fresh.
- DiskCache.BlockCache.Put: each Put and PutListing is one step, including its eviction; DiskCacheRaces interleaves them.
- Previews.NoPreviewOutlivesItsRemoval: for a directory that stays in the tree under one path; a removed directory skips forgetThumbs.
- PngText.InsertReadRoundTrip: lengths as on a 64-bit platform, where a chunk length is never negative.
- DownloadSlots.AttemptsAreBounded: the lengths of the waits between attempts are left out.
- ConfigUpgrade.Upgrade: reading, writing beside the file and the rename over it are left out, and lines are classified instead of matched.
- A failure of the Release a rename runs after replace, and kernel inode reuse, dentry notification and Forget.
- ListingLoads.ColdLoadServesTheDiskCopy: says what a load alone does; what others do to it between its regions is ListingTheorems.
- BlockCalls.OwnerGetsTheBlockIff: says what a fetch does with nothing between its regions; under interference it is BlockFetch.ReturnedBytesAreTheBlock and BlockCalls.WokenGetsTheBlockIff.
- SaveReleases.AcceptedRelease: says what a Release does with nothing between its regions; under interference it is SaveSafety and SaveLives.
- The rate-limit gate before a fetch, a wait its caller interrupts, the log messages decideStale chooses, and log throttling.
- noteRateLimitStatus: it can shorten an open window, so no monotonicity is claimed.
- uploadTimeout, upload counters, recent transfers, status snapshots and logging.
- A Truncate that races an upload of the same temp file: the upload sends the version it read, the newer one is not uploaded by that Release.
- OpenPGP, key rings, login, human verification, HTTP and JSON.
- Thumbnail execution and image scaling, the tray, the systemd unit, unmount helpers.
- Glob and regular expression matching, the local store's loopback nodes, and moves across file systems.
- migrateLayout, JSON encoding of persisted listings and the removal of empty cache directories.
