# OpenCollab runtime protocols in Dafny

OpenCollab runs a team of agents over durable virtual-machine operations, session journals, token
budgets, isolated worktrees and bounded text views. This project models the parts of that runtime
that have to survive crashes, retries and interleavings, and proves what they promise over every
input and every run. `dafny verify dfyconfig.toml` checks all of it.

How each component is modelled:

- **Guest operations** (`VmGuest`): one operation directory, any number of client, upload, cancel
  and worker processes, each advancing by one file access, any of which may die between two.
- **Client operations** (`VmClient`): the sets of pending and blocking operation identifiers under
  any script of replies.
- **Transfers** (`Frames`, `Archive`): length-prefixed streams and tree archives.
- **Exclusive machines** (`VmIsolation` over `VmLeases`): pools sharing one lease table, with acquires
  in flight, a group's owner and its lock, closing, releases, and cleanups that fail and are
  repeated, interleaved at every await; the books keep the time of each thing that happened.
- **Session storage** (`JournalFile`, `SessionReplay`, `SessionStore`): a base document and a
  journal as bytes; every atomic replacement and every byte reaching the journal is a state in
  which the process may stop.
- **Budgets** (`BudgetLeases`): leases, deferred reservations and seat caps.
- **Reflog attribution** (`Reflog`): entries as commit, parents and what the matchers find.
- **Environment pool** (`WorktreePool`): acquires, releases and single releases interleaved at
  every await.
- **Locks, trace and notices** (`WriteLock`, `TraceWriter`, `StopNotice`).
- **Fast forms** (`TextRange`, `BoundedOutput`, `RepoMap`, `AnthropicHistory`): streaming or bounded
  views against a simple definition.

Protocols between processes or tasks are state machines over values: a function per step, a run
as a sequence of steps, an invariant that each step keeps. Objects that one caller updates in place
are classes whose methods are proved against the same functions. `Wrappers` and `Decimals` hold
shared definitions.

## Where the code does not do what one might expect

Each of these is proved with a concrete counterexample or an exact condition:

- A guest result `cleanup_failed` may become `failed` as well as `cancelled`, when an error leaves
  the retry loop (`VmGuest.CleanupFailureMayFail`, `VmGuest.CleanupFailureMoves`).
- The client drops a cancelled operation whose upload is unfinished, and recovering a pending
  operation that failed for a missing file leaves it blocking although no longer pending; a second
  recovery clears it (`VmClient.OperateDropsExactly`, `VmClient.RecoverKeepsRecoverableIff`,
  `VmClient.BlockedWithNothingPending`, `VmClient.SecondRecoveryUnblocks`).
- In a group, an acquire that is overtaken by closing may record an environment after the cleanup of
  its owner has listed what to export; it is not returned, and is lost with the machine
  (`VmIsolation.LateRecordsAreClosedGroups`, `VmIsolation.ResetBetweenOwners`,
  `VmIsolation.RecordedMayBeLost`).
- Compaction cannot carry an empty transcript, and after it deltas that empty a transcript load
  differently where no document existed (`SessionStore.EmptyTranscriptGainsAMessage`,
  `SessionStore.EmptyTranscriptIsCheckpointed`, `SessionStore.AcceptedCheckpointKeepsTheFuture`,
  `SessionStore.EmptiedSessionLoadsDifferently`).
- The entry agent's share is booked without looking at what is committed
  (`BudgetLeases.SeedFitsIff`, `BudgetLeases.RestoredSeedMayNotFit`).
- `release_env` may clean a source while an acquire in flight records a dependent of it
  (`WorktreePool.SourceMayBeCleanedUnderADependent`, `WorktreePool.DependentAppearsIff`,
  `WorktreePool.CleanedUnderDependentIff`).
- One record may be written after the trace has latched a full queue
  (`TraceWriter.NothingAfterFailureIff`, `TraceWriter.ARecordMayFollowTheFailure`).
- The streaming range read flags truncation of some windows that fit
  (`TextRange.StreamingAgainstSimple`, `TextRange.StreamingIsOvercautious`).
- Root lines of the repository map that fit by themselves may be dropped when a truncation remark
  has to follow them (`RepoMap.RootLinesReachTheReaderIff`, `RepoMap.RootLinesMayBeDropped`).
- Thinking that a shorter view has removed returns when a later request sends it again beyond the
  end of its input, for the comparison stops where the shorter history ends
  (`AnthropicHistory.NothingNewIff`, `AnthropicHistory.RemovedThinkingMayReturn`).

## Model

| member | source | states |
|---|---|---|
| `VmGuest.PerformsAtMostOnce` | opencollab/adapters/_vm_remote.py:278-367 | over every run of duplicated starts, racing workers, deaths and cancels, execution begins at most once, for the request first bound, by the worker that wrote the start record, and an import only over a complete published archive |
| `VmGuest.BindingIsForever` | opencollab/adapters/_vm_remote.py:347-367 | the bound request, the start record and the executions are never replaced |
| `VmGuest.RunKeepsInv` | opencollab/adapters/_vm_remote.py:278-465 | every event keeps what each point of each process relies on |
| `VmGuest.TerminalResultIsForever` | opencollab/adapters/_vm_remote.py:289-345 | a completed, failed or cancelled result never changes |
| `VmGuest.CleanupFailureNeverCompletes` | opencollab/adapters/_vm_remote.py:304-328 | a cleanup failure never turns into a completion |
| `VmGuest.CleanupFailureMoves` | opencollab/adapters/_vm_remote.py:304-345 | exactly which steps turn it into cancelled, and which into failed |
| `VmGuest.CleanupFailureMayFail` | opencollab/adapters/_vm_remote.py:331-345 | a reachable run in which it becomes failed |
| `VmGuest.CancelledBeforeStartNeverPerforms` | opencollab/adapters/_vm_remote.py:442-465 | once a cancel is recorded with no start record, the operation never executes |
| `VmGuest.LostRunIsForever` | opencollab/adapters/_vm_remote.py:92-115 | a started operation whose worker died stays as it is, never repeated |
| `VmGuest.DiedAfterStartIsUnknown` | opencollab/adapters/_vm_remote.py:92-115 | it is reported unknown, in every later state |
| `VmGuest.SettledStatusIsForever` | opencollab/adapters/_vm_remote.py:92-115 | a settled status reads the same in every later state |
| `VmClient.WaitDropsOnlyTerminal` | opencollab/adapters/_env_vm.py:180-198 | waiting drops a pending identifier exactly on a terminal record, blocks on any other settled one, and touches no other identifier |
| `VmClient.OperateDropsExactly` | opencollab/adapters/_env_vm.py:200-231 | exactly which replies make a submission drop its identifier, cancellation included |
| `VmClient.PendingUntilConcluded` | opencollab/adapters/_env_vm.py:166-280 | over any run of calls a pending identifier is dropped only by a call that concludes it |
| `VmClient.OperateKeepsRecoverable` | opencollab/adapters/_env_vm.py:200-231 | whatever blocks the client stays pending, so that it can be recovered |
| `VmClient.RecoverKeepsRecoverableIff` | opencollab/adapters/_env_vm.py:258-280 | recovery keeps that except exactly for a pending operation that failed for a missing file |
| `VmClient.BlockedWithNothingPending` | opencollab/adapters/_env_vm.py:258-280 | a client and reply for which it does |
| `VmClient.SecondRecoveryUnblocks` | opencollab/adapters/_env_vm.py:258-280 | recovering such an operation again settles it |
| `VmClient.VmEnvironment.Wait` | opencollab/adapters/_env_vm.py:180-198 | the polling loop ends at the first reply that is not busy and updates both sets as specified |
| `VmClient.VmEnvironment.CancelOperation` | opencollab/adapters/_env_vm.py:166-178 | the cancel loop, against its specification |
| `VmClient.VmEnvironment.Operate` | opencollab/adapters/_env_vm.py:200-231 | up to three attempts on lost connections, then doubt; cancellation on interruption |
| `VmClient.VmEnvironment.RecoverOperation` | opencollab/adapters/_env_vm.py:258-280 | recovery with its treatment of missing files |
| `Frames.ArchiveWrite` | opencollab/adapters/_vm_remote.py:410-416 | a write is framed in bounded pieces |
| `Frames.UnpackPack` | opencollab/adapters/_vm_remote.py:410-416 | a length prefix reads back |
| `Frames.StreamRoundTrips` | opencollab/adapters/_env_vm.py:413-424 | receiving what was sent yields the exact bytes, however cut into writes, and leaves what follows |
| `Frames.CutStreamIsRefused` | opencollab/adapters/_vm_remote.py:370-407 | any accepted stream, cut anywhere before its end, is refused |
| `Frames.TruncatedUploadIsRefused` | opencollab/adapters/_vm_remote.py:380-407 | no proper prefix of a sent stream is taken for an archive |
| `Frames.Input.ReadExact` | opencollab/adapters/_vm_remote.py:370-377 | reads exactly so many bytes over short reads, or fails |
| `Frames.Input.ReadFrame` | opencollab/adapters/_env_vm.py:413-424 | one frame: the end, a chunk, or an error for a short or oversized one |
| `Frames.Input.ReceiveArchive` | opencollab/adapters/_vm_remote.py:380-407 | the receiving loop yields the whole payload or nothing |
| `Archive.UnpackArchive` | opencollab/adapters/_vm_archive.py:71-128 | the extraction and mode loops, against their specification |
| `Archive.ExtractAllKeepsStaged` | opencollab/adapters/_vm_archive.py:71-119 | while members are extracted the staging area is closed under parents and every directory private |
| `Archive.ModesAreSetInsideOut` | opencollab/adapters/_vm_archive.py:120-128 | final modes are set without failing, each while all its ancestors are still 0700 |
| `Archive.AcceptedArchiveIsFinished` | opencollab/adapters/_vm_archive.py:71-128 | for every accepted archive, unpacking succeeds exactly when there is a payload, and sets every listed mode |
| `Archive.ImageIsTheTree` | opencollab/adapters/_vm_archive.py:26-57 | the file-system image of a tree holds the same node at each path |
| `Archive.UnpackRebuildsTheTree` | opencollab/adapters/_vm_archive.py:26-128 | unpacking what was packed rebuilds any tree of directories, files and links, modes kept to 0777 |
| `VmLeases.EarlierOwner` | opencollab/adapters/vm_isolation.py:214-262 | in books that are in order, of two owners of a machine the earlier was reset and wiped before the claim of the later |
| `VmLeases.OnlyAStatusZeroAdvances` | opencollab/adapters/vm_isolation.py:235-255 | a command counts as done exactly on a complete status 0 of an operation issued for it; unknown outcomes are awaited again |
| `VmLeases.ClaimKeeps` | opencollab/adapters/_vm_leases.py:41-51 | a row claimed for a machine that has none keeps the turns of its owners |
| `VmLeases.FreeKeeps` | opencollab/adapters/_vm_leases.py:73-79 | so does giving the row up, once both commands are done |
| `VmIsolation.RunKeepsInv` | opencollab/adapters/vm_isolation.py:132-300 | every step of every acquire, release and cleanup keeps what each point of each call relies on, and the books in order |
| `VmIsolation.OneOwnerPerMachine` | opencollab/adapters/_vm_leases.py:41-51 | in every run a machine has at most one owner, the one in its row |
| `VmIsolation.ResetBetweenOwners` | opencollab/adapters/vm_isolation.py:214-262 | in every run, between two owners the reset and then the wipe completed with status 0; everything returned was exported before the reset, and what was merely recorded exactly if the cleanup listed it |
| `VmIsolation.OneCleanupAtATime` | opencollab/adapters/vm_isolation.py:165-178 | two calls are never cleaning up one owner, although an acquire takes no release lock for it |
| `VmIsolation.NothingReturnedOfADoomedOwner` | opencollab/adapters/vm_isolation.py:132-164 | no environment of an owner is returned once its cleanup has begun |
| `VmIsolation.LateRecordsAreClosedGroups` | opencollab/adapters/vm_isolation.py:145-164 | one is recorded then only by an acquire that found the group's owner, in a pool closed since |
| `VmIsolation.RecordedMayBeLost` | opencollab/adapters/vm_isolation.py:145-178 | a run in which such an environment is given up without export |
| `VmIsolation.NothingElseAdvances` | opencollab/adapters/vm_isolation.py:235-255 | no other step of any call moves an owner through its reset |
| `JournalFile.CompleteJournalSize` | opencollab/adapters/storage.py:610-622 | the backward search finds the end of the last complete line, for any chunk size |
| `JournalFile.CompleteSizeIsUnique` | opencollab/adapters/storage.py:610-622 | that boundary is the only one |
| `JournalFile.ReadJournalRecords` | opencollab/adapters/storage.py:624-659 | the records of the complete lines, or an error for any bad one |
| `JournalFile.AppendAddsRecord` | opencollab/adapters/storage.py:565-607 | a completed append adds exactly its record |
| `JournalFile.TornAppendIsInvisible` | opencollab/adapters/storage.py:565-659 | a torn append is invisible and is exactly what the next append cuts off |
| `JournalFile.TruncationIsInvisible` | opencollab/adapters/storage.py:585-607 | cutting a torn tail changes nothing a reader sees |
| `SessionReplay.ReplayRecords` | opencollab/adapters/storage.py:218-277 | the replay loop, against its specification |
| `SessionReplay.NewestPersistedSequence` | opencollab/adapters/storage.py:661-676 | the loop over base and records, against its specification |
| `SessionReplay.Newest` | opencollab/adapters/storage.py:661-676 | the largest of the document's sequence and those of the records |
| `SessionReplay.ReplaysIffApplies` | opencollab/adapters/storage.py:218-277 | replay succeeds exactly when each delta replaces from inside what the one before left, told from the records alone |
| `SessionReplay.CoveredRecordsAreSkipped` | opencollab/adapters/storage.py:218-222 | records a base covers do nothing |
| `SessionReplay.ReplayReachesNewest` | opencollab/adapters/storage.py:218-277 | a replay only moves forward and ends at the newest sequence |
| `SessionReplay.NewestIsTheReplayedSequence` | opencollab/adapters/storage.py:661-676 | where a load succeeds its cursor is the newest persisted sequence |
| `SessionReplay.RepeatedDeltaLoadsOnce` | opencollab/adapters/storage.py:437-487 | a delta that reached the journal twice loads as if once |
| `SessionReplay.ReplayedHashes` | opencollab/adapters/storage.py:241-277 | deltas in order leave exactly the hashes added since the last reset |
| `SessionReplay.NewerDeltasForgetTheForm` | opencollab/adapters/storage.py:678-701 | states equal up to normal form replay newer deltas to the same end |
| `SessionStore.SaveIsAtomic` | opencollab/adapters/storage.py:150-168 | every durable state inside a save after its first write loads as the new document |
| `SessionStore.SaveIsAllOrNothing` | opencollab/adapters/storage.py:150-168 | a crash in a save loads as before or as after |
| `SessionStore.AppendIsAtomic` | opencollab/adapters/storage.py:565-607 | an append loads as before until its last byte, then as one more record |
| `SessionStore.PartialAppendIsAllOrNothing` | opencollab/adapters/storage.py:565-607 | whatever bytes and rollbacks an append leaves loads as before or as after |
| `SessionStore.AppendedDeltaIsReadBack` | opencollab/adapters/storage.py:437-487 | a newer delta is read back exactly when it replaces from inside the transcript, and what is then loaded |
| `SessionStore.CheckpointIsAtomic` | opencollab/adapters/storage.py:489-548 | both durable states of a checkpoint load as the checkpoint |
| `SessionStore.CheckpointIsAllOrNothing` | opencollab/adapters/storage.py:489-548 | a crash in a checkpoint loads as before or as after |
| `SessionStore.AcceptedCheckpointIsNewest` | opencollab/adapters/storage.py:505-548 | no accepted checkpoint goes back, and none leaves records behind |
| `SessionStore.CompactionIsInvisible` | opencollab/adapters/storage.py:489-548 | checkpointing the replayed state is accepted exactly when its sequence is not ambiguous, and keeps the load |
| `SessionStore.AcceptedCheckpointKeepsTheFuture` | opencollab/adapters/storage.py:489-548 | an accepted checkpoint of the replayed state, whichever records the journal has, loads as that state did, and later deltas load the same with or without it, exactly unless they empty a transcript that had no document |
| `SessionStore.EmptiedSessionLoadsDifferently` | opencollab/adapters/storage.py:505-548 | a session without a document whose next delta empties it: refused after compaction, loaded without it |
| `SessionStore.EmptyTranscriptGainsAMessage` | opencollab/adapters/storage.py:505-548 | an accepted checkpoint of an empty transcript has gained a blank message |
| `SessionStore.EmptyTranscriptIsCheckpointed` | opencollab/adapters/storage.py:505-548 | a session that is checkpointed with such a message and loads differently |
| `SessionStore.Store.Save` | opencollab/adapters/storage.py:150-168 | the method goes through exactly the specified durable states |
| `SessionStore.Store.CheckpointSnapshot` | opencollab/adapters/storage.py:489-548 | the same for checkpoints, refusals included |
| `SessionStore.Store.AppendJournalRecord` | opencollab/adapters/storage.py:565-607 | short writes, errors and rollbacks leave only cut journals with part of the payload |
| `SessionStore.Store.AppendSnapshotDelta` | opencollab/adapters/storage.py:437-487 | a delta is appended whole or not at all |
| `SessionStore.Store.LoadSnapshot` | opencollab/adapters/storage.py:174-287 | a load reads the disk as specified |
| `BudgetLeases.DynamicShare` | opencollab/domain/scheduler.py:36-41 | a dynamic share never exceeds the total |
| `BudgetLeases.SplitBudget` | opencollab/domain/scheduler.py:43-50 | a child's grant never exceeds what is free |
| `BudgetLeases.FloorIsTheLargestShare` | opencollab/domain/scheduler.py:22-34 | the seat cap is the largest equal share of the total |
| `BudgetLeases.ReleaseFrees` | opencollab/application/_scheduler_persistence.py:382-392 | releasing a lease frees exactly its unspent part |
| `BudgetLeases.GrantFits` | opencollab/application/_scheduler_persistence.py:254-342 | a grant within what is free never commits beyond the total |
| `BudgetLeases.DeferralKeepsTheCommitment` | opencollab/application/_scheduler_persistence.py:208-240 | deferring moves a grant without releasing a token of it |
| `BudgetLeases.FinishFrees` | opencollab/application/_scheduler_persistence.py:242-252 | finishing a provider task never raises the commitment |
| `BudgetLeases.SpendingIsCovered` | opencollab/application/_scheduler_persistence.py:181-206 | spending within a reservation of one's own never raises the commitment |
| `BudgetLeases.RunNeverOvercommits` | opencollab/application/_scheduler_persistence.py:181-413 | in dynamic mode, for every interleaving, spent <= committed <= total |
| `BudgetLeases.DeferredUntilEveryTaskSettles` | opencollab/application/_scheduler_persistence.py:208-252 | a deferred grant is held whole until every provider task has settled, in any order, and then is gone |
| `BudgetLeases.RestoreGivesBackAtMostTheRest` | opencollab/application/_scheduler_persistence.py:401-413 | a restore never gives back more than was left of the old lease |
| `BudgetLeases.SeatsStayUnderTheirCaps` | opencollab/application/_scheduler_persistence.py:268-342 | in capped mode a seat that stops at its limit never passes its cumulative cap |
| `BudgetLeases.SeatsShareTheTotal` | opencollab/domain/scheduler.py:22-34 | with no more spenders than seats the team stays within its total |
| `BudgetLeases.SeedFitsIff` | opencollab/application/_scheduler_persistence.py:164-172 | seeding the entry lease fits exactly when everything else leaves that much |
| `BudgetLeases.RestoredSeedMayNotFit` | opencollab/application/_scheduler_persistence.py:164-172 | a run from unspent books, each step of it allowed, after which seeding passes the total |
| `BudgetLeases.Scheduler.BudgetCommitted` | opencollab/application/_scheduler_persistence.py:193-206 | the sums over the tables are the commitment |
| `BudgetLeases.Scheduler.ReserveChildBudget` | opencollab/application/_scheduler_persistence.py:254-266 | books or caps as specified |
| `BudgetLeases.Scheduler.ReserveTurnLease` | opencollab/application/_scheduler_persistence.py:327-342 | releases, grants and sets the limit as specified |
| `BudgetLeases.Scheduler.ReleaseTurnLease` | opencollab/application/_scheduler_persistence.py:382-392 | takes the lease out and returns it |
| `BudgetLeases.Scheduler.RestoreTurnLease` | opencollab/application/_scheduler_persistence.py:401-413 | restores as specified, nothing for no lease |
| `BudgetLeases.Scheduler.DeferBudgetLease` | opencollab/application/_scheduler_persistence.py:208-240 | moves the lease to a fresh reservation, or refuses |
| `BudgetLeases.Scheduler.FinishProviderBudgetLease` | opencollab/application/_scheduler_persistence.py:242-252 | marks a task and drops the reservation with the last |
| `BudgetLeases.Scheduler.SeedEntryLease` | opencollab/application/_scheduler_persistence.py:164-172 | books agent 0's dynamic share, nothing for declared seats |
| `Reflog.PreviousWorkIsTheFirstDecision` | opencollab/adapters/git_worktree_evidence.py:34-55 | the entry found is the first that decides where the commit came from, and only if that is work |
| `Reflog.PreviousWorkEntry` | opencollab/adapters/git_worktree_evidence.py:34-55 | the search loop, against that specification |
| `Reflog.SelectDiffBase` | opencollab/adapters/git_worktree_evidence.py:58-117 | the loop with its abort counter and jumps, against a recursion on the rest of the reflog |
| `Reflog.BracketIsSkipped` | opencollab/adapters/git_worktree_evidence.py:84-100 | inside an aborted rebase nothing counts until its start |
| `Reflog.RecentWorkIsPassedOver` | opencollab/adapters/git_worktree_evidence.py:58-117 | prepending own commits and whole aborted rebases never changes the answer |
| `Reflog.ResetResumesEarlierWork` | opencollab/adapters/git_worktree_evidence.py:108-116 | a reset onto earlier work answers like the reflog cut to start there |
| `Reflog.AdoptionEndsTheStretch` | opencollab/adapters/git_worktree_evidence.py:101-116 | merges answer with the incoming parent, other moves with the adopted commit |
| `Reflog.NoOpMoveIsInvisible` | opencollab/adapters/git_worktree_evidence.py:58-117 | a move onto the current commit changes nothing, wherever it happened |
| `Reflog.AnswerIsInTheReflog` | opencollab/adapters/git_worktree_evidence.py:58-117 | the answer is a commit or parent of the reflog, or the fallback |
| `WorktreePool.RunKeepsInv` | opencollab/adapters/worktree_pool.py:83-187 | every step of every call keeps the pool's tables in order |
| `WorktreePool.ReleaseCleansWhenDrained` | opencollab/adapters/worktree_pool.py:303-342 | a release cleans only with no acquire in flight and nothing a recorded dependent needs |
| `WorktreePool.SweepingStopsTheOthers` | opencollab/adapters/worktree_pool.py:233-265 | while it cleans, no other call can do anything |
| `WorktreePool.ReleaseOvertakesEveryAcquire` | opencollab/adapters/worktree_pool.py:245-265 | an acquire begun before a release never returns its environment after it |
| `WorktreePool.EveryEnvironmentIsAccounted` | opencollab/adapters/worktree_pool.py:169-187 | everything given or built is cleaned, tracked, or with an acquire in flight |
| `WorktreePool.ReleaseEmptiesThePool` | opencollab/adapters/worktree_pool.py:317-342 | a release leaves exactly what failed and the sources of what remains; if nothing failed, nothing |
| `WorktreePool.SourceMayBeCleanedUnderADependent` | opencollab/adapters/worktree_pool.py:344-359 | a run in which `release_env` cleans a source under a dependent |
| `WorktreePool.DependentAppearsIff` | opencollab/adapters/worktree_pool.py:147-168 | a first dependent appears exactly when an acquire copying from the source records one |
| `WorktreePool.UncopiedSourceStaysFree` | opencollab/adapters/worktree_pool.py:344-359 | while no acquire in flight or beginning copies from it, no run gives a source a dependent |
| `WorktreePool.CleanedUnderDependentIff` | opencollab/adapters/worktree_pool.py:344-359 | a `release_env` that is cleaning a source can end with it cleaned under a dependent, no further acquire from it beginning, exactly when one in flight may still record |
| `WriteLock.NeverTwoInside` | opencollab/adapters/_env_docker.py:694-744 | two tasks are never inside the write section of one target |
| `WriteLock.OnlyTheOwnerReenters` | opencollab/adapters/_env_docker.py:713-722 | coming in goes straight inside exactly for the owning task |
| `WriteLock.EntryWhileUsed` | opencollab/adapters/_env_docker.py:89-96 | a key has an entry exactly while somebody uses it, and all use that one |
| `WriteLock.EntryStaysTheSame` | opencollab/adapters/_env_docker.py:738-744 | a step replaces no entry: it stays, or goes with its last user |
| `WriteLock.RunKeepsInv` | opencollab/adapters/_env_docker.py:694-744 | every step keeps users, counts, owners and lock holders in agreement |
| `TraceWriter.EveryCallIsAccounted` | opencollab/adapters/trace.py:244-288 | calls = records written + dropped steps + records queued or in hand |
| `TraceWriter.FileIsConsecutive` | opencollab/adapters/trace.py:132-172 | written steps run on from the recovered one; a torn record is only ever the last thing |
| `TraceWriter.ClosedTraceIsSettled` | opencollab/adapters/trace.py:309-328 | once closed, each call was written or dropped |
| `TraceWriter.AfterFailure` | opencollab/adapters/trace.py:119-172 | after a latched failure at most the record past its check is written |
| `TraceWriter.NothingAfterFailureIff` | opencollab/adapters/trace.py:119-172 | nothing more can be written exactly when no record is past its check |
| `TraceWriter.OnlyAFullQueueOvertakesAWrite` | opencollab/adapters/trace.py:278-288 | only a full queue leaves such a record |
| `TraceWriter.ARecordMayFollowTheFailure` | opencollab/adapters/trace.py:278-288 | a run in which it does |
| `StopNotice.NoticeFits` | opencollab/application/_scheduler_stop_notice.py:86-108 | every notice of a valid role keeps 8 KiB after escaping, whatever the reason and result |
| `StopNotice.EscapeSize` | opencollab/application/_scheduler_stop_notice.py:23-28 | escaped text takes at most five UTF-8 bytes a character |
| `StopNotice.EscapedHasNoTags` | opencollab/application/_scheduler_stop_notice.py:23-28 | no text can close the notice or open another |
| `StopNotice.AttributeIsClosed` | opencollab/application/_scheduler_stop_notice.py:23-28 | no role or identifier can end its attribute |
| `StopNotice.ExchangesAreOrderly` | opencollab/application/_scheduler_stop_notice.py:33-139 | in every run at most one direction of a pair is unanswered, each message yields at most one notice, no inbox passes its limits |
| `StopNotice.SettledStaysSettled` | opencollab/application/_scheduler_stop_notice.py:61-139 | an answered or noticed message is never noticed again |
| `StopNotice.AnswerSettles` | opencollab/application/_scheduler_stop_notice.py:33-38 | an answer settles exactly the message it answers |
| `StopNotice.Exchanges.RecordTeammateExchange` | opencollab/application/_scheduler_stop_notice.py:33-38 | the nested table changes as the table of pairs does |
| `TextRange.SplitLinesAreTheLines` | opencollab/adapters/_safe_file_common.py:14-22 | splitting and dropping the last part gives the lines of the text |
| `TextRange.NormalizedIsUniversal` | opencollab/adapters/_safe_file_common.py:11-12 | the two replacements equal universal newlines in one pass |
| `TextRange.TextStream.ReadTextLine` | opencollab/adapters/_safe_file_common.py:29-53 | one line, cut exactly at the limit, whatever the chunk size |
| `TextRange.TextStream.SelectLines` | opencollab/adapters/_safe_file_range.py:30-74 | the collecting loop and how it ends |
| `TextRange.TextStream.ReadTextRange` | opencollab/adapters/_safe_file_range.py:11-102 | the window of lines exactly, or a prefix of it within a character of the budget; true totals and exact `has_more`; truncation exactly when the window overruns |
| `TextRange.StreamingAgainstSimple` | opencollab/adapters/_env_base.py:67-90 | the streaming answer against the whole-file one, both directions |
| `TextRange.StreamingIsOvercautious` | opencollab/adapters/_safe_file_range.py:32-42 | a window that fits and is flagged all the same |
| `BoundedOutput.ReadBoundedOutput` | opencollab/adapters/_env_process.py:57-81 | for every chunking, the first half of the limit rounded up and the last half, everything if it fits, and the exact number dropped |
| `BoundedOutput.HeadAndTail` | opencollab/adapters/_env_process.py:65-81 | head and tail together are what is retained |
| `RepoMap.WalkBudget.Append` | opencollab/adapters/repo_map.py:157-168 | a line is taken exactly when both limits allow it |
| `RepoMap.WalkBudget.Walk` | opencollab/adapters/repo_map.py:176-321 | the walk of a directory shows, counts and stops exactly as its recursive definition says |
| `RepoMap.WalkBudget.WalkReserved` | opencollab/adapters/repo_map.py:289-315 | so does a subtree walked with room set aside, and the limits are restored after it |
| `RepoMap.WalkBudget.ShowRoot` | opencollab/adapters/repo_map.py:283-321 | the root's lines, with each subtree walked in the room that is left for the lines after it, as the definition says |
| `RepoMap.WalkBudget.WalkRoot` | opencollab/adapters/repo_map.py:176-321 | the whole walk, against its definition |
| `RepoMap.RootShowsItsOwn` | opencollab/adapters/repo_map.py:283-315 | if the root's own lines fit alone, all are shown in order, each followed by what there was room for of its subtree |
| `RepoMap.WalkTakes` | opencollab/adapters/repo_map.py:176-321 | a walk takes in exactly what its part of the tree counts to and shows all its lines, unless a limit stops it, which it does exactly when that would pass a limit |
| `RepoMap.NotTruncatedIff` | opencollab/adapters/repo_map.py:103-174 | the map is not truncated exactly when the whole tree stays within every limit, and then shows all of it |
| `RepoMap.WholeMapReachesTheReader` | opencollab/adapters/repo_map.py:103-174 | the reader gets the whole map of such a tree |
| `RepoMap.RenderBoundedLines` | opencollab/adapters/repo_map.py:73-101 | within the limit: everything, or the longest prefix of lines that fits with the exact number omitted, or nothing |
| `RepoMap.KeepsIff` | opencollab/adapters/repo_map.py:73-101 | the first lines are shown exactly when everything fits or they do with the remark on the rest |
| `RepoMap.BuildRepoMap` | opencollab/adapters/repo_map.py:103-174 | which limits are refused, and otherwise the one text that walk and rendering determine |
| `RepoMap.RootLinesReachTheReaderIff` | opencollab/adapters/repo_map.py:170-174 | root lines that fit alone are all collected; they all reach the reader exactly when the walk was not truncated, or the remark fits too, or what is shown up to the last of them and the count of the rest does |
| `RepoMap.RootLinesMayBeDropped` | opencollab/adapters/repo_map.py:103-174 | a call in which root lines that fit are dropped and the reader gets the heading alone |
| `AnthropicHistory.BareIsBare` | opencollab/application/_anthropic_history.py:12-24 | stripping removes thinking blocks, all of them and nothing else |
| `AnthropicHistory.KeptAreTheOthers` | opencollab/application/_anthropic_history.py:12-24 | the other blocks keep their order |
| `AnthropicHistory.StripAnthropicThinking` | opencollab/application/_anthropic_history.py:12-24 | the loop, against its specification |
| `AnthropicHistory.EditedAnthropicHistory` | opencollab/application/_anthropic_history.py:26-35 | the comparison loop, against its specification |
| `AnthropicHistory.EditedKeepsIff` | opencollab/application/_anthropic_history.py:26-35 | a message is kept exactly with the same system messages and nothing changed up to it |
| `AnthropicHistory.ViewKeepsIff` | opencollab/application/_anthropic_history.py:44-55 | exactly what it takes to survive into the next view |
| `AnthropicHistory.ThinkingHasItsPrefix` | opencollab/application/_anthropic_history.py:37-55 | thinking in a view sits after exactly the prefix of the previous view, under the same tools and system messages |
| `AnthropicHistory.ThinkingComesFromInput` | opencollab/application/_anthropic_history.py:26-55 | within the length of its input, a view shows thinking only where the input has it, behind the same prefix |
| `AnthropicHistory.NothingNewIff` | opencollab/application/_anthropic_history.py:26-55 | a call can bring no other thinking exactly when it sends no more than its input has, or under changed tools or a new system message |
| `AnthropicHistory.ThinkingSatThereSince` | opencollab/application/_anthropic_history.py:37-55 | over any run of views, shrinking ones included, thinking has sat behind the same prefix since the first view, or since it was taken in from a transcript message new to every view |
| `AnthropicHistory.RemovedThinkingNeverReturns` | opencollab/application/_anthropic_history.py:37-55 | what a view removed never returns while requests stay within their inputs |
| `AnthropicHistory.RemovedThinkingMayReturn` | opencollab/application/_anthropic_history.py:26-35 | a run beyond that, in which it does |
| `AnthropicHistory.RecoveryRetiresAllThinking` | opencollab/application/_anthropic_history.py:57-81 | recovery is refused exactly without thinking, and otherwise leaves none |
| `AnthropicHistory.Session.RememberAnthropicHistory` | opencollab/application/_anthropic_history.py:44-55 | stores and returns the specified view |

## Left out

- Git, Docker and SSH commands, process groups and `/proc` inspection: their meaning lives in external programs and the operating system.
- Descriptor-level file safety, path jails and the regular expressions of the command filters: pattern lists and operating-system behaviour; atomic replacement, advisory locks and appends are primitive steps.
- The shapes of JSON messages: `SessionReplay.Record` has one flag for them, and a codec that reads back what it wrote stands for JSON.
- Limits on the size of a stored document, time-outs, sleeps and clocks: running out of time is one of the outcomes a step may choose.
- What a regular expression finds in a reflog message is part of the entry; parsing the lines of the reflog is not modelled.
- Budgets per role: `_role_budgets` replaces the seat cap by an allowance per role; only the shared rule is modelled, with a share of 1 and without floating-point rounding of the cap.
- Sessions outside the session table: an agent's usage is one number, so the fallback from the table to the session object is not modelled.
- The delivery environment and delivery lock of the worktree pool, and the two kinds of candidate it may build: one step builds an environment, and more interleavings are covered than the lock allows.
- A pool constructed around the same environment twice: the environments handed to it are taken to be different.
- Which machine a claim takes among the free ones, waiting for capacity, and how a machine is prepared and imported into: each succeeds or fails as a step.
- What the pool inside a machine does while it lends or is released: building, tidying and giving back an environment are steps of the outer pool; the count of acquires in flight is read off the calls.
- `publish` of an unpacked tree, and archive members other than directories, files and links beyond their refusal.
- Which entries of a directory the repository map chooses, their order and the wording of the omission line: the walk is proved for every choice; the listing made through an environment's shell is not modelled.
- Temporary files of the machine environment, the text of errors, events and log lines: they carry no invariant of their own.
- The drain of an inbox into a prompt takes any prefix; how large a prefix is chosen is not modelled.
