# NppFTP transfer core: a verified model

NppFTP is an FTP/SFTP plug-in whose transfers run on several threads. This project models its
concurrent upload scheduler, the lock-free pieces below it, its recursive transfer plans, and the
sequential components whose index arithmetic is easy to get wrong, and proves what they keep over
all inputs and all interleavings. `dafny verify dfyconfig.toml` checks everything.

## How it is organised

**The upload scheduler.** `Operations` and `SchedulingPolicy` hold operations, conflict, equality and
the two lanes. `TransferQueue` is the state of one worker queue and what each of its monitor sections
and each step of its thread does; `FtpQueue` is the class with the loops, proved against it, and
`TransferQueueRuns` proves its safety over all runs of one queue, and that what is queued is performed;
`QueueDuplicates` that nothing is queued twice. `SchedulerCore` states what each
monitor section of the scheduler does, `UploadScheduler` is the class whose methods are those
sections, and `SchedulerRuns` is the whole protocol: one action for each monitor section, for each
unlocked step between two sections (the terminal hook, the deletion), for each step of a worker's
thread, and for each stage of `Deinitialize`. Operations whose caller is between two sections are
explicit state (`leaving`, `left`, `disposing`), and ledgers count hooks, deletions, calls of Perform, and
operations that went without one. `SchedulerLedger` and `SchedulerSafety` show that every action keeps the
invariant, `SchedulerTheorems` draws the conclusions, `SchedulerLiveness` shows that every run drains,
`SchedulerPerformance` that what is admitted is performed, `SchedulerCancels` that a cancel is final, and
`SchedulerOrder` says place by place what each call does to the lanes.

**Lock-free pieces.** `ExecutionState` (the compare-and-swap word of an operation), `UploadBatch` (the
counters of a recursive upload) and `PrepareLifecycle` (the operation that prepares it) take one
interlocked instruction or one hand-over per action, with any number of threads and files.
`UploadLifecycle` runs the last two together, from the preparation to the completion message.

**Plans.** `RemotePaths`, `DownloadItems`, `DownloadScan`, `DownloadDirectories` and `DownloadPlan` are the
recursive download. `DownloadListing` shows that what the server lists is in the plan, `DownloadHistory` is a
plan's whole life, and `ListingOrder` is the well-founded order that makes the scan end for every server.
`UploadPlan` is the recursive upload; `UploadTree` shows that a plan holds exactly the local tree.

**Sequential components.** `FifoQueue` (circular byte queue), `PathSimplifier` and `PathBuffers` (two ways
to simplify a path), `PathLaws` (what simplifying means, name by name), `ChunkedFind` (blockwise search), `RecentDirs`, `ReplyReader` (multi-line replies,
section 4.2 of RFC 959).

## What the proofs found

- A whole `Deinitialize` can return while an `AddQueueOp` or `CancelQueueOp` call still owns the operation
  it took out of the lists. "Every operation finished" holds exactly when no such call is left
  (`ShutdownFinishesEverything`, with the run in `ShutdownCanLeaveATail`).
- A batch that were both dispatched and cancelled unstarted would announce its completion too early
  (`BothWaysAnnouncesTooEarly`). The session never does both (`DispatchedOrCancelled`). A teardown keeps the
  batch from being forgotten exactly when it does not find the preparing operation still waiting
  (`TeardownKeepsTheBatch`), and the completion message can be missing in that case only
  (`OneMessageForEveryUpload`).
- `Find` misses a match that ends the data when the data left is exactly as long as the string, and never
  finds a string of 4095 bytes; for which lengths it is exact is `ExactForTheseLengths`.
- `SimplifyExternalPath` calls `strlen` on the current directory even when the path is absolute, so the
  agreement of the two simplifications is stated for calls that pass one. It accepts paths the in-place way
  gives up on (`ExternalMaySucceedAlone`); the in-place way succeeds exactly when every front part of the
  path simplifies to something that fits (`WalksWhenFrontsFit`).
- `SimplifyExternalPath` writes a separator before it looks whether the next name fits. Its terminator then
  lies one past the buffer exactly when some front part of the path, but not the whole, simplifies to a text
  one character shorter than the buffer (`WriteNames`); the call fails in that case.
- A multi-line reply that breaks off is stored with its last line twice; the stored lines are the received
  ones exactly on streams that do not break off within a reply (`StoredLinesAreReceived`). Calls that get and
  peek keep in step with the replies on every stream exactly when no get comes after two peeks in a row
  (`InStepWithoutDoublePeeks`).

## Model

| member | source | states |
|---|---|---|
| Operations.Scan | src/UploadSchedulingPolicy.h:97-108 | the loop stops at the first operation that passes the test, or at the end |
| SchedulingPolicy.UploadSchedulingPolicy.Push | src/UploadSchedulingPolicy.h:29-34 | appends to the lane of the priority and leaves the other lane alone |
| SchedulingPolicy.UploadSchedulingPolicy.TakeNext | src/UploadSchedulingPolicy.h:36-48 | takes the front of the urgent lane, else of the normal lane, else nothing |
| SchedulingPolicy.UploadSchedulingPolicy.TakeNextMatching | src/UploadSchedulingPolicy.h:50-56 | takes the first match of the urgent lane, else of the normal lane; nothing else moves |
| SchedulingPolicy.UploadSchedulingPolicy.PromoteWaiting | src/UploadSchedulingPolicy.h:58-70 | a normal operation moves to the end of the urgent lane, an urgent one stays |
| SchedulingPolicy.UploadSchedulingPolicy.Remove | src/UploadSchedulingPolicy.h:76-78 | removes one occurrence, the urgent lane first, and tells whether there was one |
| SchedulingPolicy.UploadSchedulingPolicy.FindWaiting | src/UploadSchedulingPolicy.h:80-91 | the first match over both lanes, urgent first |
| SchedulingPolicy.TakenContent | src/UploadSchedulingPolicy.h:50-56 | taking removes exactly the operation it returns, and returns none only if none matches |
| SchedulingPolicy.PromotedContent | src/UploadSchedulingPolicy.h:58-70 | promoting neither loses nor duplicates an operation |
| FtpQueue.FTPQueue.AddQueueOp | src/FTPQueue.cpp:130-163 | refuses during teardown, drops a duplicate of a queued operation unless its kind also compares that neither is running, else appends |
| FtpQueue.FTPQueue.CancelQueueOp | src/FTPQueue.cpp:220-258 | the active operation is never removed; a waiting one is erased, and exactly that one has its cancel and terminal hooks called |
| FtpQueue.FTPQueue.BeginTeardown | src/FTPQueue.cpp:260-279 | marks teardown, changes neither list nor active operation, and at the first call cancels and tells exactly the active operation |
| FtpQueue.FTPQueue.ClearQueue | src/FTPQueue.cpp:175-218 | keeps the active operation first and, outside teardown, the completion markers after it; returns what goes |
| FtpQueue.FTPQueue.StartNext | src/FTPQueue.cpp:293-351 | the front of the list becomes the active operation, or the thread leaves when stopping |
| FtpQueue.FTPQueue.MarkRunning | src/FTPQueue.cpp:309-310 | the operation counts as running, and nothing else changes |
| FtpQueue.FTPQueue.StartExecution | src/FTPQueue.cpp:312-320 | the thread goes on to perform the operation exactly when its execution has not been cancelled |
| FtpQueue.FTPQueue.PerformActive | src/FTPQueue.cpp:312-318 | what is performed is the active operation, the front of the list |
| FtpQueue.FTPQueue.EndActive | src/FTPQueue.cpp:321-322 | what is ended and hooked is that same operation |
| FtpQueue.FTPQueue.GoOn | src/FTPQueue.cpp:335-338 | the thread leaves its loop exactly when the queue stops |
| FtpQueue.FTPQueue.RemoveActive | src/FTPQueue.cpp:293-351 | removes exactly the front |
| FtpQueue.FTPQueue.LeaveLoop | src/FTPQueue.cpp:293-359 | a thread that leaves performs nothing and keeps its list |
| FtpQueue.FTPQueue.DrainAfterStop | src/FTPQueue.cpp:70-128 | after the thread has left, every operation is taken from the list and deleted, and all are hooked but one already hooked |
| FtpQueue.MarkersKeepTheirOrder | src/FTPQueue.cpp:175-218 | two completion markers kept by a clear stay in their original order |
| FtpQueue.MarkerIsKept | src/FTPQueue.cpp:175-218 | no completion marker is lost by a clear outside teardown |
| QueueDuplicates.AdmissionTells | src/FTPQueue.cpp:130-163 | an operation is admitted only if nothing queued is equal to it, or only the front, which is running and of a kind that compares that; it is dropped only if something equal is queued |
| QueueDuplicates.QueuedOperationsDiffer | src/FTPQueue.cpp:130-359 | over all runs no two queued operations are equal, but for the front, once it runs, and one of such a kind behind it |
| TransferQueueRuns.StepKeepsInv | src/FTPQueue.cpp:130-351 | every call and every step of the thread keeps the queue's invariant and its ledgers |
| TransferQueueRuns.TransferQueueSafety | src/FTPQueue.cpp:293-351 | over all runs: the active operation is the front while performing, the thread removes exactly what it started, nothing is started, hooked or deleted twice, and a drained queue has hooked and deleted what it did not drop |
| TransferQueueRuns.PerformedBeforeHook | src/FTPQueue.cpp:293-359 | over all runs an operation is performed at most once, what is deleted was performed or is one of those that go without (rejected, dropped, cancelled, cleared, drained, or torn down before its start), and never both |
| TransferQueueRuns.QueuedIsPerformed | src/FTPQueue.cpp:293-359 | in a run without cancel, clear, teardown and stop whatever is handed over and not dropped has been performed exactly once when it is hooked, deleted, or the queue is empty again |
| UploadScheduler.ConcurrentUploadScheduler.Initialize | src/ConcurrentUploadScheduler.cpp:55-108 | a stopped scheduler starts with idle workers, or stays as it is when a worker cannot be made; a running one stays as it is |
| UploadScheduler.CancelledStep | src/ConcurrentUploadScheduler.cpp:236-259 | one turn of the loop over the workers in a cancel, and when it ends early |
| UploadScheduler.ConcurrentUploadScheduler.AddSection | src/ConcurrentUploadScheduler.cpp:159-184 | refuse when not accepting, merge with an equal waiting operation, else hold the operation until its notification is acknowledged |
| UploadScheduler.ConcurrentUploadScheduler.CommitSection | src/ConcurrentUploadScheduler.cpp:189-204 | the held operation enters the lane of its current priority unless it was cancelled or accepting ended |
| UploadScheduler.ConcurrentUploadScheduler.CancelSection | src/ConcurrentUploadScheduler.cpp:220-261 | marks a held operation, takes a waiting or assigned one, reports an active one as not cancellable; what these answers mean is AnswerTellsWhere and CancelIsFinal |
| UploadScheduler.ConcurrentUploadScheduler.DispatchSection | src/ConcurrentUploadScheduler.cpp:296-325 | gives the first idle worker the first operation free of conflict, or nothing when stopping |
| UploadScheduler.ConcurrentUploadScheduler.FindIdleWorker | src/ConcurrentUploadScheduler.cpp:327-333 | the first worker with no assignment and an empty queue |
| UploadScheduler.ConcurrentUploadScheduler.TerminalSection | src/ConcurrentUploadScheduler.cpp:410-425 | the reported operation leaves the worker's assignment list |
| UploadScheduler.ConcurrentUploadScheduler.StopSection | src/ConcurrentUploadScheduler.cpp:110-130 | stops accepting and begins the teardown of every worker queue |
| UploadScheduler.ConcurrentUploadScheduler.DetachSection | src/ConcurrentUploadScheduler.cpp:382-388 | takes all workers out of the scheduler and changes nothing else |
| UploadScheduler.ConcurrentUploadScheduler.FinishSection | src/ConcurrentUploadScheduler.cpp:146-152 | clears the three flags and changes nothing else |
| UploadScheduler.ConcurrentUploadScheduler.TakeForDeletion | src/ConcurrentUploadScheduler.cpp:367-380 | takes waiting operations one by one, the urgent lane first |
| SchedulerSafety.StepKeepsInv | src/ConcurrentUploadScheduler.cpp:110-425 | every action of every thread keeps shape, distinct waiting operations and both ledgers |
| SchedulerTheorems.NoTwoWorkersConflict | src/ConcurrentUploadScheduler.cpp:301-343 | in every reachable state no two workers hold conflicting uploads, a worker holds at most one, performs only what it holds, and holds nothing only when its queue is empty |
| SchedulerTheorems.OneOwner | src/ConcurrentUploadScheduler.cpp:110-262 | an operation is in at most one place, nothing listed is deleted, hook and deletion happen at most once and in that order |
| SchedulerTheorems.DispatchIsAdmitted | src/FTPQueue.cpp:130-163 | the rejecting and duplicate branches of a worker queue are never taken by a dispatch |
| SchedulerTheorems.ShutdownFinishesEverything | src/ConcurrentUploadScheduler.cpp:110-153 | after Deinitialize every operation has been hooked once and deleted once, if and only if no add or cancel call is still finishing one |
| SchedulerTheorems.ShutdownCanLeaveATail | src/ConcurrentUploadScheduler.cpp:189-214 | a complete run in which that condition fails |
| SchedulerTheorems.OneWaitingOneActive | src/ConcurrentUploadScheduler.cpp:155-204 | each identity has at most one waiting operation and, for uploads, at most one assigned |
| SchedulerTheorems.MergeKeepsCountAndPromotes | src/ConcurrentUploadScheduler.cpp:167-183 | while accepting an add merges exactly when an equal operation waits; the waiting count stays, and an urgent add makes the waiting one urgent |
| SchedulerTheorems.DispatchRespectsPriority | src/UploadSchedulingPolicy.h:50-56 | a normal upload is dispatched only when every urgent one conflicts; nothing earlier in its lane has the same paths |
| SchedulerTheorems.ConflictIsShared | src/UploadTransferIdentity.h:17-21 | an upload with the same paths conflicts with the same workers |
| SchedulerCore.WorkerCount | src/ConcurrentUploadScheduler.cpp:44-47 | the allowed number of workers nearest to the one asked for |
| SchedulerCancels.AnswerTellsWhere | src/ConcurrentUploadScheduler.cpp:216-262 | in every reachable state each answer of a cancel is given if and only if the operation is held, in a lane, with a worker that performs it, with a worker that does not, or in none of these places |
| SchedulerCancels.CancelIsFinal | src/ConcurrentUploadScheduler.cpp:216-262 | an operation that a cancel marked or took is in no lane and with no worker in any state reached afterwards, and is never performed |
| SchedulerCancels.OtherAnswersChangeNothing | src/ConcurrentUploadScheduler.cpp:216-262 | a cancel that reports an active or unknown operation changes nothing |
| SchedulerOrder.AddIsSettled | src/ConcurrentUploadScheduler.cpp:155-184 | an add is refused exactly when nothing is accepted, merged exactly when an equal operation waits, else held; and what stays unchanged |
| SchedulerOrder.MergePromotes | src/ConcurrentUploadScheduler.cpp:167-183 | an urgent add moves the equal operation from its place in the normal lane to the end of the urgent one, or raises the priority of the held one |
| SchedulerOrder.CommitGoesLast | src/ConcurrentUploadScheduler.cpp:189-214 | a committed add stands last in the lane of its priority, unless it was cancelled or accepting ended: then the call keeps it |
| SchedulerOrder.CancelTakesOne | src/ConcurrentUploadScheduler.cpp:216-262 | a cancel of a waiting operation takes it out of its place, and every other operation stands as it stood |
| SchedulerOrder.DispatchesWhenItCan | src/ConcurrentUploadScheduler.cpp:296-325 | a dispatch turn gives out an operation if and only if a worker is idle and something waits that conflicts with nothing assigned; the first idle worker has it alone |
| SchedulerPerformance.PerformedAtMostOnce | src/FTPQueue.cpp:293-359 | in every reachable state an operation has been performed or gone without at most once, what is deleted exactly once, and what waits has not been performed |
| SchedulerPerformance.AdmittedIsPerformed | src/FTPQueue.cpp:293-359 | in a run without a cancel of it and without a shutdown an admitted operation is deleted only after it was performed, and once nothing is left to do it has been performed, hooked and deleted exactly once |
| SchedulerLiveness.StepDecreases | src/ConcurrentUploadScheduler.cpp:296-325 | every step without a further call lowers one measure |
| SchedulerLiveness.IdleWorkersGetWork | src/ConcurrentUploadScheduler.cpp:296-325 | when something waits and no worker holds an operation, a dispatch turn takes one |
| SchedulerLiveness.StopProgress | src/ConcurrentUploadScheduler.cpp:110-153 | a shutdown that has begun always has a next step |
| SchedulerLiveness.EveryRunDrains | src/ConcurrentUploadScheduler.cpp:110-325 | without further calls a run is bounded, ends with everything finished and, if a shutdown had begun, with Deinitialize returned |
| ExecutionState.StepKeepsInv | src/QueueOperation.cpp:115-153 | what every interlocked instruction keeps of the word and the counts |
| ExecutionState.RankGrows | src/QueueOperation.cpp:115-153 | Finished and Canceled are final until the next PrepareExecution |
| ExecutionState.BodyAndCancel | src/QueueOperation.cpp:115-153 | per preparation one body and one successful cancel at most; wasRunning exactly when the body had begun, and otherwise it never begins |
| ExecutionState.RetriesAreBounded | src/QueueOperation.cpp:115-153 | before it ends a begin loop fails at most two exchanges and a cancel loop at most three |
| ExecutionState.BoundsAreReached | src/QueueOperation.cpp:115-153 | runs in which these bounds are reached |
| ExecutionState.AloneNothingIsLost | src/QueueOperation.cpp:115-153 | a begin that nobody disturbs succeeds exactly from Idle or Starting, a cancel exactly from Starting, Running or, if it may, Idle; otherwise nothing changes |
| ExecutionState.CourseOfAnOperation | src/QueueOperation.cpp:115-153 | left alone an operation is prepared, started, begun once and finished |
| ExecutionState.QueueExecution.BeginPerform | src/QueueOperation.cpp:115-124 | the loop ends under any interference, succeeds exactly if the last value it saw is Idle or Starting, and then leaves Running |
| ExecutionState.QueueExecution.CancelExecution | src/QueueOperation.cpp:138-153 | the loop ends under any interference, succeeds exactly if the last value it saw can be cancelled, then leaves Canceled, and reports Running exactly |
| UploadBatch.AtMostOneMessage | src/RemoteUploadPlan.cpp:380-393 | at most one completion message, whatever the threads do |
| UploadBatch.StepKeepsInv | src/RemoteUploadPlan.cpp:353-393 | what every interlocked instruction keeps for a batch that goes one way |
| UploadBatch.CompletionExactlyOnce | src/RemoteUploadPlan.cpp:353-446 | the count never goes negative, completion is never asked for early, and is asked for exactly once after the last file, also with no file |
| UploadBatch.BothWaysAnnouncesTooEarly | src/RemoteUploadPlan.cpp:353-393 | a run of a batch that goes both ways and announces completion with a file outstanding |
| PrepareLifecycle.DispatchedOrCancelled | src/FTPSession.cpp:511-537 | a batch is never both dispatched and cancelled unstarted, and ends up neither exactly when a teardown found its preparation waiting and it succeeded nevertheless |
| PrepareLifecycle.StepsDecide | src/Windows/FTPWindow.cpp:2643-2644 | stated on the steps of a run: a batch is dispatched only after its preparation returned success, cancelled unstarted only after it failed or after an abort, a cancel or a teardown; without these a finished run dispatches exactly after success and cancels exactly after failure |
| PrepareLifecycle.GoesOn | src/FTPQueue.cpp:293-359 | from every reachable state the threads have a step that brings the operation nearer to its end, without anybody interfering |
| PrepareLifecycle.TeardownKeepsTheBatch | src/FTPQueue.cpp:260-279 | every way to go on after a teardown ends with the batch dispatched or cancelled unstarted if and only if the operation was no longer waiting |
| UploadLifecycle.OneMessageForEveryUpload | src/RemoteUploadPlan.cpp:353-446 | preparation and batch together: never an early or second completion message, and once all has ended exactly one, with that one exception |
| UploadLifecycle.EveryFileIsUploaded | src/FTPSession.cpp:511-537 | a preparation that returns success in an undisturbed run ends with every selected file ended by its own operation, none cancelled unstarted, and one message; one that fails starts no file |
| PrepareLifecycle.ForgottenWhenWaiting | src/QueueOperation.cpp:897-910 | a run from a teardown of a waiting operation to a batch that is neither |
| UploadLifecycle.CallIsAccepted | src/FTPSession.cpp:511-537 | the call that a step of the preparation makes into the batch is always one the batch accepts |
| ListingOrder.ListingLowersRank | src/QueueOperation.cpp:1032-1051 | replacing a pending path length by any finite number of greater ones below MAX_PATH lowers an ordinal rank |
| RemotePaths.LocalPathIsInsideRoot | src/RemoteDownloadPlan.cpp:103-117 | every local path that is made is the local root or lies below it |
| RemotePaths.ChildLocalPath | src/RemoteDownloadPlan.cpp:252-273 | the local path of an entry, when it has one, is its directory's local path, a separator and the entry's name |
| RemotePaths.LocalPathOneDeeper | src/RemoteDownloadPlan.cpp:252-273 | a path one name below a directory has a local path if and only if the directory has one, the name has a local form, and both stay short enough; and which one |
| RemotePaths.RootLocalPath | src/RemoteDownloadPlan.cpp:252-273 | the local path of the remote root is the local root |
| DownloadScan.RootsAre | src/RemoteDownloadPlan.cpp:205-222 | the local root is the last name of the remote root below the local parent, in exactly the cases in which that name has a local form and the path fits |
| DownloadScan.NormalizedName | src/RemoteDownloadPlan.cpp:71-96 | a directory one name below the root of the server is accepted exactly when the name has a local form |
| DownloadScan.NormalizedOneDeeper | src/RemoteDownloadPlan.cpp:71-96 | a directory one name deeper is accepted exactly when its parent is and the name has a local form |
| DownloadScan.NormalizedEnds | src/RemoteDownloadPlan.cpp:71-96 | slashes at the end do not matter; the root of the server and relative paths are refused |
| DownloadScan.PendingIsAccepted | src/RemoteDownloadPlan.cpp:275-280 | in a plan that was built the answer for a pending directory is never refused |
| DownloadListing.ListingIsAccounted | src/RemoteDownloadPlan.cpp:291-335 | for every listing: each entry of kind file or directory whose path is the directory, a slash and a convertible name, with a local path that fits, has one item with its path and kind, in the order of the entries, selected unless its local path is taken; every other entry has one failure, with its reason, and no item |
| DownloadListing.AnswersAreComplete | src/RemoteDownloadPlan.cpp:275-337 | after any scan every accepted answer has its items, every new item is from an answer, the items that were there are unchanged but for their marks, and the directories asked for are exactly the newly scanned ones |
| DownloadListing.EveryDirectoryIsHeld | src/QueueOperation.cpp:1032-1051 | a scan that ends well has asked for every selected directory, also those it found on the way, and holds what was answered |
| DownloadItems.ListingAppends | src/RemoteDownloadPlan.cpp:291-335 | a listing only appends children of the directory, each placed where its path says, and keeps the items distinct |
| DownloadHistory.LocalPathsStayApart | src/RemoteDownloadPlan.cpp:275-337 | from Build on, after any listings of any paths, marks and deselections in any order, no two selected items have local paths equal up to case, and all lie inside the root |
| DownloadScan.AppliedKeepsItems | src/RemoteDownloadPlan.cpp:275-337 | one listing of any path keeps every item in its place and the selected local paths apart |
| DownloadItems.AncestorsAreSelected | src/RemoteDownloadPlan.cpp:339-356 | every directory between the root and a selected item is selected and comes before it |
| DownloadScan.RankFalls | src/QueueOperation.cpp:1032-1051 | one listing lowers the rank of what is pending, whatever the server answered |
| DownloadPlan.RemoteDownloadPlan.Build | src/RemoteDownloadPlan.cpp:196-224 | roots and root item of a plan for a remote directory below a local one, or an empty plan when any check fails |
| DownloadPlan.RemoteDownloadPlan.AddItem | src/RemoteDownloadPlan.cpp:226-250 | the item appended, or why none is |
| DownloadPlan.RemoteDownloadPlan.GetLocalPath | src/RemoteDownloadPlan.cpp:252-273 | the segment loop computes the local path, or fails on any bad segment or length |
| DownloadPlan.RemoteDownloadPlan.ApplyRemoteDirectoryListing | src/RemoteDownloadPlan.cpp:275-337 | an accepted listing is accounted for entry by entry, in order (Accounts), or its directory is reported; a refused one changes nothing; places and distinct paths are kept |
| DownloadPlan.RemoteDownloadPlan.ScanDirectory | src/QueueOperation.cpp:1032-1051 | one listing marks its directory scanned, adds what was answered, and lowers the rank |
| DownloadPlan.RemoteDownloadPlan.Scan | src/QueueOperation.cpp:1032-1051 | ends for every server; no directory is asked for twice; the items are what was answered and nothing else (ScanIsComplete); on success no selected directory is left unscanned |
| DownloadPlan.RemoteDownloadPlan.Perform | src/QueueOperation.cpp:1017-1055 | a scan that cannot connect leaves the plan as it was; otherwise what Scan states |
| DownloadPlan.RemoteDownloadPlan.PrepareLocalDirectories | src/RemoteDownloadPlan.cpp:339-371 | for any failures: deselected are exactly the items at or below a failed directory and the blocked files, and every selected directory exists |
| DownloadDirectories.AncestorsWereCreated | src/RemoteDownloadPlan.cpp:339-356 | after it every ancestor of a selected item, up to the root, is selected and was created |
| UploadPlan.RemotePathDepth | src/RemoteUploadPlan.cpp:58-71 | counts the parts of a path |
| UploadPlan.ChildIsDeeper | src/RemoteUploadPlan.cpp:58-71 | a path one name below another is exactly one deeper |
| UploadPlan.StableSortIsOne | src/RemoteUploadPlan.cpp:264-266 | the sort by depth is sorted and keeps the order within each depth, hence a permutation |
| UploadPlan.StableSortIsUnique | src/RemoteUploadPlan.cpp:264-266 | there is no other stable sort, so any library sort gives the same list |
| UploadPlan.TreeIsPlanned | src/RemoteUploadPlan.cpp:161-207 | directories stay before files and every item but the top lies directly below a directory of the plan |
| UploadTree.PlanIsTheTree | src/RemoteUploadPlan.cpp:85-207 | a plan that is made has exactly one item for the top and for each entry reached from it through directories, without ".", ".." and reparse points: of its kind, with the local and remote path joined from the names on the way; directories before files, each in the order of a walk |
| UploadTree.BuiltExactlyWhen | src/RemoteUploadPlan.cpp:85-207 | a plan is made if and only if the arguments are given, the top is a directory with a name, and every entry reached has a name and fitting paths and every directory reached is listed to its end |
| UploadTree.TreeIsHeld | src/RemoteUploadPlan.cpp:161-207 | the same for one directory added to any plan: its directories stand before the first file, its files at the end |
| UploadPlan.ParentsAreCreatedFirst | src/RemoteUploadPlan.cpp:257-268 | the directories are the first items of a plan; in the order of creation each but the top comes after its parent, and every item lies in one of them |
| UploadPlan.RemoteUploadPlan.Build | src/RemoteUploadPlan.cpp:85-117 | the items of the local tree (PlanIsTheTree), or none when any part of it fails (BuiltExactlyWhen), and the target path without slashes at its end |
| UploadPlan.RemoteUploadPlan.AddDirectory | src/RemoteUploadPlan.cpp:119-142 | inserts before the first file |
| UploadPlan.RemoteUploadPlan.AddDirectoryRecursive | src/RemoteUploadPlan.cpp:161-207 | walks the tree in listing order and fails as soon as one entry does; what it adds is TreeIsHeld |
| UploadPlan.RemoteUploadPlan.GetDirectoryItems | src/RemoteUploadPlan.cpp:257-268 | the directories, stably sorted by depth |
| FifoQueue.TakenIsOldest | UTCP/src/UT_Queue.cpp:138-159 | what a read delivers followed by what is left is what was queued |
| FifoQueue.WrittenIsNewest | UTCP/src/UT_Queue.cpp:206-227 | a write appends as much as fits and never reaches the state with read 0 and write at the end |
| FifoQueue.GrownKeepsContents | UTCP/src/UT_Queue.cpp:100-125 | growing keeps the contents in order |
| FifoQueue.FirstInFirstOut | UTCP/src/UT_Queue.cpp:39-227 | over every history the bytes delivered and those queued are the bytes accepted, in order |
| FifoQueue.CUT_FIFO_Queue.GetDataSize | UTCP/src/UT_Queue.cpp:67-76 | the number of queued bytes |
| FifoQueue.CUT_FIFO_Queue.GetFreeSize | UTCP/src/UT_Queue.cpp:85-88 | one less than the buffer minus the queued bytes, never negative |
| FifoQueue.CUT_FIFO_Queue.Read | UTCP/src/UT_Queue.cpp:138-159 | delivers the oldest bytes into the caller's buffer, touches nothing else of it, and drops them |
| FifoQueue.CUT_FIFO_Queue.Peek | UTCP/src/UT_Queue.cpp:172-193 | delivers the same and changes nothing |
| FifoQueue.CUT_FIFO_Queue.Write | UTCP/src/UT_Queue.cpp:206-227 | accepts as much as is free, behind what is queued |
| FifoQueue.CUT_FIFO_Queue.Grow | UTCP/src/UT_Queue.cpp:100-125 | a larger buffer with the same contents, or no change when the queue cannot grow |
| PathSimplifier.RenderedComponents | src/remote_browser_utils.h:269-300 | taking a simplified path apart gives its components back |
| PathSimplifier.TypedAgreesWithExternal | src/PathUtils.cpp:368-435 | whenever the in-place way succeeds, the other succeeds with the same text for the same buffer size |
| PathSimplifier.ExternalMaySucceedAlone | src/remote_browser_utils.h:288-293 | a family of paths on which only the other way succeeds |
| PathSimplifier.WalksWhenFrontsFit | src/remote_browser_utils.h:288-293 | the in-place way succeeds exactly when every front part simplifies to a text that fits |
| PathSimplifier.TypedSucceedsWithRoom | src/remote_browser_utils.h:242-305 | a buffer longer than the path is always enough |
| PathSimplifier.TypedIsIdempotent | src/remote_browser_utils.h:242-305 | simplifying a result again, from anywhere, changes nothing; no empty, "." or ".." component is left |
| PathSimplifier.ExternalIsIdempotent | src/PathUtils.cpp:368-435 | the same for the other way |
| PathLaws.SimplifiesToOne | src/PathUtils.cpp:368-435 | every path simplifies to one text, in every buffer that holds it |
| PathLaws.StartsAtCurrentDirectory | src/PathUtils.cpp:368-435 | a path that starts with a slash does not depend on the current directory; any other is read from there |
| PathLaws.GoesOnByNames | src/PathUtils.cpp:368-435 | a name behind a slash leads nowhere, to the parent, or to the child of that name |
| PathLaws.SlashChangesNothing | src/PathUtils.cpp:368-435 | a slash at the end changes nothing |
| PathLaws.RootSimplifies | src/PathUtils.cpp:368-435 | the same from the root |
| PathLaws.ParentOfChild | src/PathUtils.cpp:368-435 | the parent of a child is where it was entered from |
| PathLaws.NoSlashTwice | src/PathUtils.cpp:368-435 | a simplified path starts with a slash, doubles none, and ends with one only as the root |
| PathBuffers.SimplifyTypedPath | src/remote_browser_utils.h:242-305 | the loops stay within buffer and marks, and leave the terminated text of the component stack |
| PathBuffers.EnterName | src/remote_browser_utils.h:278-299 | what ".", ".." and a name do to text and marks, and when a name does not fit |
| PathBuffers.RemoveDots | src/PathUtils.cpp:392-412 | erasing in place resolves "." and ".." like a stack |
| PathBuffers.SimplifyExternalPath | src/PathUtils.cpp:368-435 | the terminated text of the resolved components, or failure when it does not fit; how far it writes |
| PathBuffers.WriteNames | src/PathUtils.cpp:414-430 | the last character written lies one past the buffer if and only if some front part but the whole fills it, and nothing behind it is touched |
| ChunkedFind.ExactForTheseLengths | UTCP/src/UTDataSource.cpp:47-123 | for which string and data lengths the search finds the first match on all data without terminators, in both directions |
| ChunkedFind.ResultMeans | UTCP/src/UTDataSource.cpp:47-123 | a returned offset is the first place within the limit where the string stands, character by character, with both cases of a letter alike unless case matters; and when the search is able to find, -1 means that there is none |
| ChunkedFind.FirstOccurrenceMeans | UTCP/src/UTDataSource.cpp:47-123 | the same for the first occurrence without limit |
| ChunkedFind.FirstFromIsFirst | UTCP/src/UTDataSource.cpp:86-88 | the first match is a match and none lies before it |
| ChunkedFind.BlockDecides | UTCP/src/UTDataSource.cpp:77-120 | what one overlapping block tells of the whole text |
| ChunkedFind.CUT_BufferDataSource.Read | UTCP/src/UTDataSource.cpp:586-597 | the next bytes, as many as there are |
| ChunkedFind.CUT_BufferDataSource.Seek | UTCP/src/UTDataSource.cpp:637-668 | where each origin leads, when it is refused, and that the position stays within the data exactly for a relative or a non-negative offset |
| ChunkedFind.CUT_BufferDataSource.Find | UTCP/src/UTDataSource.cpp:47-123 | on any data a returned offset is a match within the limit; without terminators it is the first one, and -1 means what the specification says |
| RecentDirs.HistoryGivesMostRecent | src/RecentDirs.h:8-19 | after any history the list is the most recently used paths, latest first, each once |
| RecentDirs.MostRecentIsUnique | src/RecentDirs.h:8-19 | there is only one such list |
| RecentDirs.LoadUndoesSave | src/FTPProfile.cpp:722-731 | adding the saved paths in reverse gives the list back |
| RecentDirs.FTPProfile.AddRecentDir | src/FTPProfile.cpp:426-428 | the list after an add, and the refusal of a missing or empty path |
| RecentDirs.FTPProfile.SaveRecentDirs | src/FTPProfile.cpp:826-834 | the paths in order |
| RecentDirs.FTPProfile.LoadRecentDirs | src/FTPProfile.cpp:722-731 | the adds in reverse order, also for a file with duplicates or too many paths |
| RecentDirs.SaveThenLoad | src/FTPProfile.cpp:826-834 | a profile saved and loaded has the list it had |
| ReplyReader.OutcomeOfStream | UTCP/src/ftp_c.cpp:2481-2554 | a reading is complete, missing, broken off or too long if and only if the stream starts with a well-formed reply, with nothing, with lines that stop, or with 10000 lines that do not end |
| ReplyReader.ReadsReply | UTCP/src/ftp_c.cpp:2481-2554 | a well-formed reply is read to its end and no further, with its lines and code |
| ReplyReader.ReadsStandardReply | UTCP/src/ftp_c.cpp:2481-2554 | a reply written as section 4.2 of RFC 959 prescribes, of one line or of many, is read completely, and its code is the number its three digits write |
| ReplyReader.CodeIsNumber | UTCP/src/ftp_c.cpp:2481-2554 | three digits give their number, whatever follows them |
| ReplyReader.GetAfterPeek | UTCP/src/ftp_c.cpp:2459-2479 | a get after a peek gives the same code and lines and consumes nothing |
| ReplyReader.InStepWithoutDoublePeeks | UTCP/src/ftp_c.cpp:2459-2554 | the gets of a list of gets and peeks give the sent replies in order on every stream if and only if no get comes after two peeks in a row |
| ReplyReader.StoredLinesAreReceived | UTCP/src/ftp_c.cpp:2531-2537 | the stored lines are exactly the received ones if and only if the stream does not break off within a reply; otherwise the last one is stored twice |
| ReplyReader.CUT_FTPClient.GetResponseCode | UTCP/src/ftp_c.cpp:2459-2479 | the cached reply once, else the next one |
| ReplyReader.CUT_FTPClient.PeekResponseCode | UTCP/src/ftp_c.cpp:2481-2554 | lines, code, cache flag and stream position after one reply, also when it is missing, breaks off or is too long |

## Left out

- Windows messages, window-procedure reentrancy, thread creation and event objects: a notification is an unlocked gap between two monitor sections, and an event is a guard on the step it would wake.
- Nested monitors: a worker queue's monitor section inside a scheduler section is taken as part of it; the worker thread's own sections interleave freely between scheduler sections.
- Follow-up operations: OnQueueTerminal returns none for every upload operation of this repository.
- AbortActive and the body of Perform: they change only the execution state and an arbitrary result.
- SchedulerPerformance.AdmittedIsPerformed: to be performed is to have Perform called; whether its body then finds the execution cancelled is the subject of ExecutionState.
- A second, concurrent caller of Deinitialize: it only waits for the first.
- A cancel on a worker queue whose thread has exited: the scheduler has detached its workers by then and never makes that call.
- UploadScheduler.ConcurrentUploadScheduler.AddSection: workers are values inside the scheduler object, so aliasing between a worker and its queue is not captured.
- Success and failure totals and the list of cancelled paths of a batch: recorded elsewhere, no control flow depends on them.
- Path pointers are never null; a missing argument is modelled only where a branch tests for it.
- DownloadPlan.RemoteDownloadPlan.Build: what the disk holds of the local parent and the local root is given; the remote root that a refused call leaves behind is not modelled.
- RemotePaths.LocalPathIsInsideRoot: PathCombine is concatenation with a separator, so the later check that the result lies inside the root always passes; name conversion and case folding are arbitrary functions.
- UploadPlan.RemoteUploadPlan.AddDirectoryRecursive: the local tree is given, and a path is a drive's root only in the form `X:\`; names in it hold no slash, which the local file system guarantees.
- FifoQueue.CUT_FIFO_Queue.Write: buffer sizes are kept below half of the 32-bit range, so that sums of an index and the size do not wrap; a count above the signed range is outside the model.
- PathBuffers.SimplifyExternalPath: the memory is the buffer and at least one character behind it, so that every write has a place.
- ChunkedFind.CUT_BufferDataSource.Find: upper case is that of the "C" locale; offsets stay within 31 bits.
- ReplyReader.CUT_FTPClient.PeekResponseCode: the text argument and the truncation of lines to the buffer length are left out; a line is what one receive delivers, up to its first terminator.
- XML parsing and writing around the saved directories, and FTP commands, sockets, TLS and libssh.
- The history control, dialogs, certificates, encryption, listing-line parsing and settings: outside the transfer core.
