# Verified model of the agent, gate and browser extension

A Dafny model of the algorithms and protocols this repository rests on, with proofs of what they
are for. Each module models one component:

| module | component |
|---|---|
| `LineDiff` | the bounded greedy line diff behind file change previews |
| `WorkQueue` | the first-come-first-served permit queue of a browser session |
| `EpochFence` | the work epoch that keeps work admitted before a pause from running after it |
| `JournalWriter` | the bounded single-worker journal writer |
| `BrowserOnce` | durable at-most-once browser mutations over crashes and restarts |
| `OperationCache` | byte accounting and eviction of the in-memory operation cache |
| `FinishVerdict` | dispatch marks and the final verdict on a browser operation |
| `LogPaging` | UTF-8-safe paging of command logs and the byte split of one poll |
| `LogBudget` | the log budget shared by both streams of a command |
| `CommandOnce` | spawn-at-most-once command sessions and their status on disk |
| `CaptureStore` | the crash-consistent capture store |
| `Permalink` | the permalink sanitiser of the capture store |
| `CommandQueue` | the bounded command queue of the extension |
| `ScopePublisher` | coalesced scope publishing of the extension |
| `RateLimiter` | the fixed-window rate limiter of the gate |
| `RecordPages` | cursor and page shrinking of the record reader |
| `Wrappers` | the option type the other modules share |

## How it is built

Code that updates state in place is a class whose methods have the source's loops and branches.
Each method is proved equal to a function on the abstract state. For the concurrent parts each
critical section, or in the extension each stretch of code between two awaits, is one event of a
state machine that applies the same function; crashes keep only the disk. The main results are
stated over `Run(events)` for every sequence of events: interleavings, failing writes,
cancellations, crashes and restarts are all events. Beside them stand lemmas that say what each
operation answers and leaves, case by case, in terms of the run so far and not of the function
that computes it.

Outcomes the code does not decide (which file operation fails, the order a map is walked in,
whether a deadline has passed, whether a process lives) are parameters of the events, so the
results hold for all of them.

## What the proofs found

Where a property one would expect is false of the code, the model keeps the code and proves when
the property holds.

- The 24 hours of the browser retry journal count from admission. Two executions of one key can
  start closer together: what is guaranteed between the starts is exactly what the delay of the
  first leaves of the TTL (`BrowserOnce.StartsApartIff`, `BrowserOnce.CloseStarts`), which with the
  30 seconds an operation may be delayed is the TTL less 30 seconds (`BrowserOnce.AllStartsApartIff`).
- `cancelled_before_dispatch` is not always true. A call can be answered so after it changed the
  browser exactly when the session is managed and the call opens a tab, closes a tab or enables
  downloads (`FinishVerdict.MisreportedIff`); for a new tab a mere pause is enough
  (`FinishVerdict.NewManagedTabIsMisreported`).
- A session pause cancels only the call context. Where that error passes through a tab action it is
  wrapped and no longer recognised: exactly the calls that change the page by a tab action can end,
  paused after their change, without `outcome_unknown`, as `browser_failed`, in a wait for the page to
  load as `wait_timeout`, in a requested verification as `state_verification_failed`, and while
  a frame is looked for again as `unknown_frame` (`FinishVerdict.PausedMutationHiddenIff`).
- The work epoch protects work from the moment `execute` reads it. Between the reservation of an
  operation and that read a pause, a cancel or a scope change can go unnoticed, a disconnect, a lost
  link or a close never (`EpochFence.UnnoticedIff`, `EpochFence.SeenIffBeforeRead`).
- A poll of both command streams can stall with a budget of four to six bytes on valid UTF-8; it
  always advances exactly from seven bytes on (`LogPaging.SeparateNeedsSevenBytes`). On any bytes a
  page stalls at every size exactly at a byte that neither starts nor continues a character
  (`LogPaging.InvalidByteStallsIff`), and paging reaches the end exactly when stepping over
  characters and stray continuation bytes meets no such byte (`LogPaging.PagingReachesEndIff`).
- A command key can be started again while its session never ended. Records without an end are
  judged by their start: a session stopped just before a crash (`CommandOnce.StoppedSessionRespawns`),
  or started just before one (`CommandOnce.UnrecordedStartRespawns`), is forgotten by a restart more
  than the TTL after its start. `restoreSessions` also skips unreadable records silently
  (`CommandOnce.UnreadableRecordRespawns`). A restart frees a key exactly when it skipped or judged
  too old every record of it (`CommandOnce.RestartFreesKeyIff`, `CommandOnce.StoppedWithoutEndIff`).
- Repeating a stored capture, or one cut off after its marker was published, succeeds exactly when
  the permalink sanitiser leaves its own output alone (`CaptureStore.RetryIffStable`,
  `CaptureStore.CrashConverges`, `CaptureStore.CrashesConverge`), that is, when the permalink is no web
  address or has a host or a port other than zero (`CaptureStore.RetryIffAddressed`). For
  `http://user@/p` it is refused (`CaptureStore.UserWithoutHostIsRefused`).
- The record reader watches the subtree of its root only. Rows hidden or shown from outside, by a
  style sheet in the head for instance, can make a chain skip a row and still call itself complete
  (`RecordPages.RestyleSkipsARow`). Not every such change does harm; which do is
  `RecordPages.PagesPartition` and, for a change before the last page, `RecordPages.RestyleHarmsIff`.
- `allowRequest` never accepts more than `2*max(1, limit)-1` requests of a key in less than a
  window, one better than twice the limit, and with a limit of zero or less it still accepts one
  request per window (`RateLimiter.AcceptedSpread`, `RateLimiter.BoundIsReached`).

## Model

| member | source | states |
|---|---|---|
| `LineDiff.SplitIsExact` | cmd/agent/file_diff.go:18-23 | splitting a text into lines loses nothing: the lines joined by newlines give back the normalised text, and no line contains a newline |
| `LineDiff.LinesAreThoseWritten` | cmd/agent/file_diff.go:18-23 | the lines of a text are those it was written with, each ended by a newline or by carriage return and newline, the last possibly by nothing if it is not empty |
| `LineDiff.EveryTextIsWritten` | cmd/agent/file_diff.go:18-23 | every text is written so, hence that law determines the lines of all texts |
| `LineDiff.FurthestStep` | cmd/agent/file_diff.go:35-43 | the greedy step keeps the furthest-reaching invariant: the neighbour that starts further, followed over its matching lines, is the furthest point of the diagonal reachable with one edit more, points outside the grid included |
| `LineDiff.FurthestAtRoundZero` | cmd/agent/file_diff.go:33-43 | round 0 starts the invariant: the first run of matches is the furthest point without edits |
| `LineDiff.Clip` | cmd/agent/file_diff.go:40-46 | a path that leaves the grid can be cut back to one inside it that costs no more and ends at the clipped point |
| `LineDiff.FirstExitIsExact` | cmd/agent/file_diff.go:44-46 | although nothing is clamped, the first point that passes the exit test is exactly the end of both texts |
| `LineDiff.NoCheaperScript` | cmd/agent/file_diff.go:33-46 | if no round before d exits, every script that rewrites the old lines into the new ones has at least d edits |
| `LineDiff.LcsPath` | cmd/agent/file_diff.go:16-17 | a longest common subsequence gives a path whose cost is the insert/delete distance, so the distance is attained |
| `LineDiff.ScriptCostsAtLeastDistance` | cmd/agent/file_diff.go:16-17 | no rewriting script has fewer edits than the lines outside a longest common subsequence |
| `LineDiff.SearchDiagonal` | cmd/agent/file_diff.go:35-43 | one pass of the inner loop overwrites one cell of the array with the furthest point of its diagonal, all indices in bounds |
| `LineDiff.BackOverRun` | cmd/agent/file_diff.go:58-62 | walking back over a run of matches stops at the start of the run and keeps the suffix replaying to the new text |
| `LineDiff.BacktrackRound` | cmd/agent/file_diff.go:50-69 | one round of the backtrack finds from the saved row the neighbour the search came from and puts exactly one edit in front |
| `LineDiff.Backtrack` | cmd/agent/file_diff.go:48-72 | the whole backtrack, with every access in bounds, yields a script that replays from the end of the common prefix to the end of both texts with d edits |
| `LineDiff.ChangedLinesOf` | cmd/agent/file_diff.go:26-76 | success exactly when there are at most 20000 lines and the insert/delete distance is at most 256; then the script, behind the unemitted common prefix, rewrites old into new, has exactly that distance as edits, and none is shorter |
| `LineDiff.ChangedLines` | cmd/agent/file_diff.go:17-77 | the same for two texts |
| `LineDiff.NumbersArePositions` | cmd/agent/file_diff.go:64-68 | in a rewriting script the numbers of the deleted and of the inserted lines are strictly increasing 1-based positions carrying the line found there |
| `LineDiff.NoEditsMeansSameLines` | cmd/agent/file_diff.go:17-72 | the distance is zero exactly when both texts have the same lines |
| `WorkQueue.BrowserWorkQueue.Acquire` | cmd/agent/browser_work_queue.go:32-53 | first critical section: a free permit is taken, a full queue refuses, otherwise the caller is appended |
| `WorkQueue.BrowserWorkQueue.Release` | cmd/agent/browser_work_queue.go:105-129 | the permit passes to the first waiter still queued and its channel is closed, or becomes free |
| `WorkQueue.BrowserWorkQueue.OnDone` | cmd/agent/browser_work_queue.go:56-72 | a caller whose context ended leaves the queue, or hands on a permit granted meanwhile |
| `WorkQueue.BrowserWorkQueue.OnReady` | cmd/agent/browser_work_queue.go:73-91 | a caller whose channel was closed owns the permit unless it was cancelled or its context ended, in which case the permit is handed on |
| `WorkQueue.BrowserWorkQueue.CancelAll` | cmd/agent/browser_work_queue.go:94-103 | every waiter is cancelled and its channel closed, the list is emptied, the holder keeps the permit |
| `WorkQueue.BrowserWorkQueue.RemoveWaiter` | cmd/agent/browser_work_queue.go:131-140 | takes exactly the given waiter out and keeps the order of the others |
| `WorkQueue.RunKeepsInv` | cmd/agent/browser_work_queue.go:32-141 | the queue invariant holds after every interleaving of critical sections |
| `WorkQueue.PermitIsConserved` | cmd/agent/browser_work_queue.go:32-129 | in every reachable state unfired releases plus granted callers that have not returned are one if active and none otherwise; inactive means an empty queue; at most eight wait; no channel is closed twice |
| `WorkQueue.FirstComeFirstServed` | cmd/agent/browser_work_queue.go:47-53 | permits go out in arrival order, and whoever still waits arrived after everyone served, even when grants race cancellations |
| `WorkQueue.AcquireAnswers` | cmd/agent/browser_work_queue.go:32-53 | in every reachable state: an ended context refuses the caller, a free permit is its own, behind eight others it is refused as busy, else it waits behind all |
| `WorkQueue.WakeAnswers` | cmd/agent/browser_work_queue.go:55-91 | a woken caller owns the permit exactly when it was granted and its context lasts; else it is refused, and a permit granted to it goes to the first waiter or becomes free |
| `WorkQueue.ReleaseAnswers` | cmd/agent/browser_work_queue.go:105-129 | the first use of a release function passes the permit to the first waiter or frees it; later uses change nothing |
| `WorkQueue.CancelledNeverHold` | cmd/agent/browser_work_queue.go:94-103 | cancelling all empties the list and leaves the holder, and none of those who waited ever owns the permit, whatever follows |
| `WorkQueue.NobodyIsStuck` | cmd/agent/browser_work_queue.go:55-129 | an owner can always take its next step, a caller that left the list can always wake, and nobody waits without an owner |
| `EpochFence.BrowserSession.Control` | cmd/agent/browser.go:428-468 | each control action, link loss, close or scope message moves the 64-bit epoch, empties the queue and cancels the active call exactly as the code does |
| `EpochFence.BrowserSession.InvalidateWork` | cmd/agent/browser_bridge.go:187-197 | link loss advances the epoch, cancels waiters and the active context |
| `EpochFence.BrowserSession.StartWork` | cmd/agent/browser.go:831-842 | work becomes active only with the epoch it read at the head of `execute` and an unpaused, connected session |
| `EpochFence.RunKeepsInv` | cmd/agent/browser.go:804-843 | the session and its permit queue keep their joint invariant in every interleaving |
| `EpochFence.EpochCounts` | cmd/agent/browser.go:428-468 | the epoch is the number of invalidating events modulo 2^64; an admission keeps the epoch it read; a session once disconnected stays so |
| `EpochFence.NoStaleStart` | cmd/agent/browser.go:804-843 | between the read of the epoch in `execute` and the step by which the work becomes active the invalidating events (pause, cancel, disconnect, close, link loss, scope change) number a multiple of 2^64; short of 2^64 there was none, even if a resume followed |
| `EpochFence.SeenIffBeforeRead` | cmd/agent/browser.go:804-843 | work that was reserved and started saw an invalidating event since its reservation exactly when one fell before its read of the epoch, and no disconnect, link loss or close ever fell |
| `EpochFence.UnnoticedIff` | cmd/agent/browser.go:804-843 | of the invalidating events exactly those that do not disconnect can follow a reservation whose work is then active and not cancelled |
| `EpochFence.UnnoticedBeforeRead` | cmd/agent/browser.go:804-810 | for each such event a run in which it and a resume fall between the reservation and the read, and the work starts |
| `EpochFence.ActiveIsFenced` | cmd/agent/browser.go:831-843 | active work holds the permit, is the only running work, and either still has the current epoch of an unpaused session or is already cancelled |
| `EpochFence.PausedByLastWord` | cmd/agent/browser.go:428-468 | the session is paused exactly when the last pause, scope message or effective resume said so, and disconnected exactly when it ever was |
| `EpochFence.StartAnswers` | cmd/agent/browser.go:826-842 | work with its permit becomes active exactly when its end was not seen, its epoch is current and the session neither paused nor disconnected; the refusal says which |
| `EpochFence.ControlAnswers` | cmd/agent/browser.go:428-468 | an invalidating event cancels the active work and everything that waits, for good; any other leaves both alone |
| `JournalWriter.BrowserJournalWriter.TryReserveLocked` | cmd/agent/browser_journal_writer.go:64-71 | a slot is given exactly when the writer is open and fewer than eight are taken |
| `JournalWriter.BrowserJournalWriter.WriteSlot` | cmd/agent/browser_journal_writer.go:104-133 | submitting accepts a job once, refuses closed, released or used slots, and frees the slot when refused |
| `JournalWriter.BrowserJournalWriter.ReleaseSlot` | cmd/agent/browser_journal_writer.go:73-86 | an unsubmitted slot is freed once and the waiters are signalled |
| `JournalWriter.BrowserJournalWriter.Close` | cmd/agent/browser_journal_writer.go:177-186 | closing frees the slots that were not submitted and signals |
| `JournalWriter.BrowserJournalWriter.FinishJob` | cmd/agent/browser_journal_writer.go:222-226 | a finished job frees its slot and signals |
| `JournalWriter.RunKeepsInv` | cmd/agent/browser_journal_writer.go:64-228 | the writer invariant holds after every interleaving of callers and worker |
| `JournalWriter.SendNeverBlocks` | cmd/agent/browser_journal_writer.go:130-133 | the channel has room whenever a job is sent under the mutex |
| `JournalWriter.WrittenInOrder` | cmd/agent/browser_journal_writer.go:195-228 | accepted jobs are written once each in acceptance order, slots never exceed eight, and the worker exits only closed with everything written |
| `JournalWriter.NothingAcceptedAfterClose` | cmd/agent/browser_journal_writer.go:106-114 | after close no job is accepted and no slot reserved |
| `JournalWriter.ReserveAnswers` | cmd/agent/browser_journal_writer.go:64-71 | a new slot is given exactly while nobody closed the writer and fewer than eight are held |
| `JournalWriter.SubmitAnswers` | cmd/agent/browser_journal_writer.go:104-133 | a job is accepted exactly when the writer is open, its slot held and unused and its context alive; every refusal says which failed, and frees the slot and signals where it must |
| `JournalWriter.GivingBackAnswers` | cmd/agent/browser_journal_writer.go:73-86 | giving a slot back frees it and signals unless its job was accepted; closing frees exactly the slots without accepted jobs |
| `JournalWriter.NoLostWakeup` | cmd/agent/browser_journal_writer.go:203-214 | a worker idle in a closed writer with slots left, and not yet signalled, has a job to take |
| `JournalWriter.WorkMakesProgress` | cmd/agent/browser_journal_writer.go:195-216 | every step of the worker in a closed writer lowers a bound on its remaining steps |
| `JournalWriter.ClosedWriterDrains` | cmd/agent/browser_journal_writer.go:195-216 | whichever ready case each select takes, a closed writer with only submitted slots writes all accepted jobs and exits |
| `BrowserOnce.BrowserManager.Open` | cmd/agent/browser.go:151-187 | restoring reads each record in order, drops expired ones and marks running ones as cut off |
| `BrowserOnce.BrowserManager.ExpireOperations` | cmd/agent/browser_operations.go:139-159 | expiry removes file, index entry and cached result of expired finished operations and stops at the first file it cannot remove |
| `BrowserOnce.BrowserManager.LoadOperation` | cmd/agent/browser_operations.go:62-91 | a retry finds the cached operation or its unexpired record, or fails |
| `BrowserOnce.BrowserManager.CallMutation` | cmd/agent/browser.go:260-322 | the critical section of a keyed call: unhealthy, replay, conflict, storage error, limit, busy or admission, with the state each leaves |
| `BrowserOnce.ExpireShrinks` | cmd/agent/browser_operations.go:139-159 | expiry, failing removals included, only drops expired operations and never a running one |
| `BrowserOnce.RestoreIndexes` | cmd/agent/browser.go:155-187 | after a successful restart every unexpired record is indexed under its key |
| `BrowserOnce.RunKeepsInv` | cmd/agent/browser.go:266-342 | the invariant behind at-most-once holds after any interleaving of calls, cancellations, evictions, failed writes, crashes and restarts |
| `BrowserOnce.AtMostOncePerTtl` | cmd/agent/browser.go:266-342 | two executions of one request key belong to admissions more than 24 hours apart |
| `BrowserOnce.SpentKeyNeverExecutes` | cmd/agent/browser.go:266-290 | within the TTL of an executed mutation its key is spent: same arguments replay it, other arguments conflict, trouble gives an error, nothing is admitted |
| `BrowserOnce.CallAnswers` | cmd/agent/browser.go:260-322 | over all runs, every answer to a keyed call, in terms of what was admitted and what runs: replay, conflict or read error from the operation the key protects, else admission exactly with fewer than 128 running and a journal slot |
| `BrowserOnce.RunningIffTask` | cmd/agent/browser.go:173-187 | an operation is running in the cache exactly while it has its goroutine, over restarts too |
| `BrowserOnce.AtMost128Run` | cmd/agent/browser.go:291-299 | never more than 128 operations run |
| `BrowserOnce.ExpireExactly` | cmd/agent/browser_operations.go:139-159 | expiry fails exactly on a file it cannot remove; else exactly the old entries of operations that do not run go, with their records and cached operations, and the old ended ones of the cache |
| `BrowserOnce.RestoreExactly` | cmd/agent/browser.go:155-187 | a restart fails exactly on an old record it cannot remove; else it drops the old records and caches all others as ended |
| `BrowserOnce.StartsFollowAdmissions` | cmd/agent/browser.go:308-342 | executions of one key start in the order of their admissions |
| `BrowserOnce.StartsApartIff` | cmd/agent/browser.go:307-327 | measured between starts instead of admissions: after a first execution delayed by `delay`, later ones of its key are guaranteed to start `gap` later exactly when `gap` is at most the TTL + 1 less the delay, or no execution is delayed that long because its 30-second context has ended |
| `BrowserOnce.AllStartsApartIff` | cmd/agent/browser.go:307-327 | whatever the delays, executions of one key start more than 24 hours less 30 seconds apart, and no better bound holds |
| `BrowserOnce.StartsInTime` | cmd/agent/browser.go:307-327 | an execution starts within 30 seconds of its admission |
| `BrowserOnce.CloseStarts` | cmd/agent/browser.go:307-327 | for every delay the timeout allows, a run whose second execution of the key starts exactly that much later, so the bounds are attained |
| `OperationCache.BrowserCache.CacheOperation` | cmd/agent/browser_operations.go:28-44 | storing or re-storing an operation keeps the byte count equal to the sum of the cached sizes |
| `OperationCache.BrowserCache.RemoveCachedOperation` | cmd/agent/browser_operations.go:47-52 | removing an operation subtracts its bytes and nothing else |
| `OperationCache.BrowserCache.SortCompleted` | cmd/agent/browser_operations.go:105-120 | the completed operations are listed reads first, then oldest, then smallest ID, whatever order the map yields |
| `OperationCache.BrowserCache.EvictUntilWithin` | cmd/agent/browser_operations.go:121-134 | the loop evicts the shortest sufficient prefix of that order, or all of it |
| `OperationCache.BrowserCache.TrimOperations` | cmd/agent/browser_operations.go:95-135 | nothing is evicted within the limits; otherwise the shortest prefix, down to the batch target; running operations stay; it ends within all limits or with no completed operation left |
| `OperationCache.BrowserCache.AdmitOperation` | cmd/agent/browser.go:291-319 | after every admission at most 4096 operations are cached and at most 128 run |
| `OperationCache.BytesWithout` | cmd/agent/browser_operations.go:47-52 | the byte sum of a cache without an operation is the sum less its size |
| `OperationCache.EvictOne` | cmd/agent/browser_operations.go:126-134 | the next victim is still cached, and removing it takes its bytes and its read count along |
| `OperationCache.RunningStay` | cmd/agent/browser_operations.go:106-110 | eviction never touches running work |
| `OperationCache.WhoGoesFirst` | cmd/agent/browser_operations.go:111-120 | of two completed operations the one evicted first is a read beside a mutation, else the older, else the one with the smaller ID |
| `OperationCache.HowManyGo` | cmd/agent/browser_operations.go:121-134 | a cache over its size falls to seven eighths of the limit, exactly so if nothing else was over; below it an operation goes only while more than 128 reads or 32 MiB are cached |
| `FinishVerdict.BrowserOperation.MarkDispatch` | cmd/agent/browser_command_context.go:51-56 | the mark is set exactly for methods that may change the page and is never taken back |
| `FinishVerdict.BrowserOperation.Finish` | cmd/agent/browser_operation_finish.go:11-69 | the shared operation and the record end as the verdict says; a failed final write makes a keyed operation unknown and the manager unhealthy |
| `FinishVerdict.RunKeepsInv` | cmd/agent/browser_operation_finish.go:11-69 | what may be said of a mutation holds of its state, its record, a late final write and every answer, over whole lives |
| `FinishVerdict.AnswersTellTheTruth` | cmd/agent/browser_operation_finish.go:11-69 | over whole lives, once the end is stored, its record, state and every answer tell the execution, completed exactly when it returned success; whatever was stored, nobody is told more than that or that the outcome was lost |
| `FinishVerdict.VerdictTells` | cmd/agent/browser_operation_finish.go:15-58 | for keyed and unkeyed operations: completed exactly on success, cancelled exactly when the context ended or the error is one of a context, the phase as the mark, the code the error's own unless replaced |
| `FinishVerdict.CodesLeftInDoubt` | cmd/agent/browser_command_context.go:13-19 | the nine codes after which a marked mutation is unknown; any other is reported as it is |
| `FinishVerdict.WhatMarks` | cmd/agent/browser_command_context.go:36-56 | exactly which sends set the mark |
| `FinishVerdict.NoDispatchVerdictIsSound` | cmd/agent/browser_operation_finish.go:22-34 | over any life with failed or late final writes, crashes and restarts, a call ever reported as cancelled before dispatch made no marking send, and no changing send at all unless it opens or closes a tab or enables downloads in a managed session |
| `FinishVerdict.MisreportedIff` | cmd/agent/browser_operation_finish.go:22-34 | some life of a call answers cancelled before dispatch after a changing send exactly when the session is managed and the call is a new tab, a closed tab or the enabling of downloads |
| `FinishVerdict.LostMutationIsUnknown` | cmd/agent/browser_operation_finish.go:22-58 | a marked mutation cut off by a crash, or failed by a recognisable cancellation or an uncertain transport code, is reported as unknown in every answer |
| `FinishVerdict.ClosingManagedTabIsMisreported` | cmd/agent/browser.go:989-995 | a life in which closing a tab of a managed browser is sent, without the mark, and answered as cancelled before dispatch |
| `FinishVerdict.ManagedDownloadsAreMisreported` | cmd/agent/browser_files.go:103-105 | a life in which enabling the downloads of a managed browser is sent and answered as cancelled before dispatch |
| `FinishVerdict.NewManagedTabIsMisreported` | cmd/agent/browser.go:969-978 | a life in which a tab of a managed browser is created and, after a mere pause, answered as cancelled before dispatch |
| `FinishVerdict.PausedMutationHiddenIff` | cmd/agent/browser.go:903-907 | a call has a life in which a pause alone ends its marked mutation and the stored end does not say unknown exactly when the call changes the page by a tab action; and the ends it can have are exactly `browser_failed`, for a navigation `wait_timeout`, for an interaction with a requested verification `state_verification_failed`, and for an interaction that looks for its frame again `unknown_frame` |
| `LogPaging.ReadLogFile` | cmd/agent/command_sessions.go:668-701 | one page of a file: leading continuation bytes are skipped and the longest valid text within the limit is returned with the position behind it |
| `LogPaging.CountLeading` | cmd/agent/command_sessions.go:690-694 | the first loop stops at the first byte that is no continuation byte |
| `LogPaging.LongestValid` | cmd/agent/command_sessions.go:695-698 | the second loop stops at the longest prefix that is valid UTF-8 |
| `LogPaging.LongestIsLongest` | cmd/agent/command_sessions.go:696-698 | what is kept is valid UTF-8 and nothing longer within the limit is |
| `LogPaging.ValidIffEncoded` | cmd/agent/command_sessions.go:695-698 | a log is valid exactly when it is the encoding of some Unicode scalar values, by section 3 of RFC 3629 |
| `LogPaging.ReadFromBoundary` | cmd/agent/command_sessions.go:668-701 | between characters of a valid file a page is exactly the text to the next position, which is again between characters; it advances exactly when the next character fits |
| `LogPaging.PageAdvancesIff` | cmd/agent/command_sessions.go:668-701 | in any file, valid or not, a page moves on exactly when it begins with a stray continuation byte or with a character that fits |
| `LogPaging.InvalidByteStallsIff` | cmd/agent/command_sessions.go:690-700 | paging stalls at a position at every page size exactly when its byte neither starts nor continues a character |
| `LogPaging.ReadCompatibilityLog` | cmd/agent/command_sessions.go:633-666 | one virtual offset over both files, as the code computes it |
| `LogPaging.CompatibilityPage` | cmd/agent/command_sessions.go:633-666 | a page over both logs is the exact text between the two offsets, never splits a character, says truly whether more follows, and advances exactly when the next character fits |
| `LogPaging.PagingRoundTrip` | cmd/agent/command_sessions.go:633-701 | for valid UTF-8 logs and pages of at least four bytes each, following the offsets from 0 ends after at most as many pages as bytes with exactly stdout followed by stderr |
| `LogPaging.PagingOfAnyLogs` | cmd/agent/command_sessions.go:633-701 | for any two logs and pages of at least four bytes each, paging ends where the scan over characters and stray continuation bytes ends and returns exactly the characters on the way, in order |
| `LogPaging.PagingReachesEndIff` | cmd/agent/command_sessions.go:633-701 | it reaches the end of both logs exactly when that scan meets no byte it cannot step over |
| `LogPaging.ReadSeparateLogs` | cmd/agent/command_sessions.go:603-630 | one offset per file with the split byte budget, as the code computes it |
| `LogPaging.SplitIsExact` | cmd/agent/command_sessions.go:617-625 | the split allots exactly the smaller of the budget and the bytes available on both streams |
| `LogPaging.SplitIsFair` | cmd/agent/command_sessions.go:617-625 | a stream with no more than its half reads it all and leaves the rest of the budget to the other; if both have more, stdout gets the odd byte |
| `LogPaging.PollWithoutOffset` | cmd/agent/command_sessions.go:605-630 | a poll without an offset returns a valid log of at most half the budget whole, of a longer one the end, to its last byte and without fewer than four bytes of that half |
| `LogPaging.MoreIff` | cmd/agent/command_sessions.go:605-630 | in all polls, more is said exactly when something lies before where reading began or behind where it ended |
| `LogPaging.BehindTheEnd` | cmd/agent/command_sessions.go:605-612 | an offset behind the end reads nothing and answers with the end |
| `LogPaging.SeparatePages` | cmd/agent/command_sessions.go:603-630 | both pages are the exact text between old and new offsets and stay within the budget together; from seven bytes on at least one advances |
| `LogPaging.SeparateNeedsSevenBytes` | cmd/agent/command_sessions.go:617-630 | a poll of both streams advances in all valid logs exactly when its budget is at least seven bytes |
| `LogBudget.LogWriters.Write` | cmd/agent/command_sessions.go:82-115 | one write: the admitted part, the truncated flag, the bytes really taken and the error |
| `LogBudget.RunKeepsInv` | cmd/agent/command_sessions.go:82-118 | in every interleaving, with writes failing at any byte, saved bytes plus remaining budget equal the initial budget, each log is a prefix of its stream, and unless a write failed it is the whole stream exactly when its flag is unset |
| `LogBudget.SavesAllItCan` | cmd/agent/command_sessions.go:86-105 | without failing writes the two logs save the smaller of the budget and everything produced, and a flag is set exactly when something was lost |
| `LogBudget.WriteAnswers` | cmd/agent/command_sessions.go:82-115 | one write in full, failing ones included: the bytes saved, the flag, when the stream stops, and the budget left |
| `CommandOnce.NativeExecutor.constructor` | cmd/agent/command_sessions.go:737-799 | restoring decides each readable record: expired and removed, running and alive, cut off before its start, or orphaned |
| `CommandOnce.NativeExecutor.ExecCommandOnce` | cmd/agent/command_history.go:41-60 | a keyed call replays or conflicts with the session it finds, or reserves durably, then starts |
| `CommandOnce.NativeExecutor.Cleanup` | cmd/agent/command_sessions.go:845-856 | exactly the finished sessions older than the TTL are dropped and handed over for removal |
| `CommandOnce.NativeExecutor.StopSession` | cmd/agent/command_sessions.go:491-513 | only a running session changes: to the given status, or to orphaned when its process is no longer the recorded one |
| `CommandOnce.NativeExecutor.ProcessEnded` | cmd/agent/command_sessions.go:341-363 | the end of a process sets the end time, and the status only if the session was still running |
| `CommandOnce.NativeExecutor.TakeSnapshot` | cmd/agent/command_sessions.go:715-729 | the snapshot to be written is the session at that moment, one at a time per session |
| `CommandOnce.NativeExecutor.StoreSnapshot` | cmd/agent/command_sessions.go:730-734 | the file becomes the snapshot, unless the write fails or the directory is gone |
| `CommandOnce.RestoreDecidesEach` | cmd/agent/command_sessions.go:743-797 | the restart decides every record on its own, whatever the others are |
| `CommandOnce.RunKeepsInv` | cmd/agent/command_sessions.go:223-266 | the invariant behind spawn-at-most-once and status order holds after every run of calls, failures, crashes and restarts |
| `CommandOnce.SpawnsApart` | cmd/agent/command_sessions.go:223-256 | two starts belong to different sessions; when they share a key, the end of the first was recorded more than the TTL before the second session began, or a restart had met its record without an end more than the TTL after its start, or the last restart could not read that record |
| `CommandOnce.ForgottenOnlyAfterEnd` | cmd/agent/command_sessions.go:845-856 | a reservation that is no longer held has an end recorded more than the TTL ago, or was judged without an end or skipped as unreadable by a restart; without any of these it is held at any age |
| `CommandOnce.RunningIsKept` | cmd/agent/command_sessions.go:761-764 | a running session is forgotten by nothing but a crash, however old, and a readable record that says it runs comes back with every restart |
| `CommandOnce.RestartFreesKeyIff` | cmd/agent/command_sessions.go:743-797 | after a restart a key can be started again exactly when every record of it was unreadable, or not running and, by its end or else its start, older than the TTL |
| `CommandOnce.CleanupFreesKeyIff` | cmd/agent/command_sessions.go:845-856 | a cleanup frees a key exactly when each of its sessions is not running and ended more than the TTL ago |
| `CommandOnce.StoppedWithoutEndIff` | cmd/agent/command_sessions.go:491-513 | a session stopped and stored, with a crash before its end is recorded, is forgotten by a restart that reads it exactly when its start, not its end, is older than the TTL |
| `CommandOnce.StoppedSessionRespawns` | cmd/agent/command_sessions.go:491-513 | a run in which a session outlives the TTL, is stopped, and after a crash and a restart that reads every record its key is started again at the moment of the stop |
| `CommandOnce.UnrecordedStartRespawns` | cmd/agent/command_sessions.go:223-266 | a run in which a crash between a start and its second record lets the key be started again after the TTL, whether or not the process still runs |
| `CommandOnce.UnreadableRecordRespawns` | cmd/agent/command_sessions.go:749-756 | a run in which the same key is started twice at the same moment because the restart between could not read the record |
| `CommandOnce.KeyInUse` | cmd/agent/command_history.go:41-60 | while a session of a key is held, which it is until its recorded end is older than the TTL or a restart could not read or judged away its record, nothing changes and the call is answered by a held session with its arguments, or by a conflict when a held one has others; with one held session it is a replay exactly when the arguments are the same |
| `CommandOnce.FreeKeyStarts` | cmd/agent/command_sessions.go:223-266 | a call whose key nobody holds has its record on disk before its process starts, and starts it exactly when that write succeeded and the launch does |
| `CommandOnce.InterruptedNeverLaunches` | cmd/agent/command_sessions.go:785-790 | a reservation whose agent died before the start is never started later and can only become outcome_unknown |
| `CommandOnce.DiskNeverGoesBack` | cmd/agent/command_sessions.go:715-735 | over whole runs the status on disk only moves from starting to running to one final terminal status, even when writers race |
| `CommandOnce.FirstTerminalWins` | cmd/agent/command_sessions.go:491-513 | over everything that happens up to the next crash, the first terminal status of stop, timeout and exit is final |
| `CommandOnce.FirstCauseWins` | cmd/agent/command_sessions.go:341-363 | a running session stays as it is until the first stop, timeout, loss or exit, and whatever follows in this life keeps the status that cause gives |
| `CommandOnce.RestartTells` | cmd/agent/command_sessions.go:743-797 | what a restart makes of one record: dropped exactly when not running and too old by its end or else its start; alive, orphaned, unknown or as it was, with what then is on disk |
| `CommandOnce.CleanupDropsIff` | cmd/agent/command_sessions.go:845-856 | a cleanup drops exactly the sessions not running whose recorded end lies more than the TTL back, and leaves the others as they are |
| `CaptureStore.CaptureDirectory.AtomicPublish` | tools/browser_capture_store.py:167-214 | creates the file, accepts identical bytes, or fails; never replaces |
| `CaptureStore.CaptureDirectory.ReadSidecars` | tools/browser_capture_store.py:333-341 | the rebuild lists the valid records and the invalid sidecars, whatever order it walks them in |
| `CaptureStore.CaptureDirectory.RebuildLocked` | tools/browser_capture_store.py:328-371 | manifest, audit and checkpoint are replaced in this order, or none when a sidecar raises |
| `CaptureStore.CaptureDirectory.AddCapture` | tools/browser_capture_store.py:274-319 | an add cut off after any number of file operations leaves exactly the state of the specification |
| `CaptureStore.CaptureDirectory.CommitCapture` | tools/browser_capture_store.py:299-319 | the three publications in order, with the size check before the marker |
| `CaptureStore.AddKeepsInv` | tools/browser_capture_store.py:274-319 | an add crashed at any step keeps every sidecar backed by its image and caption and overwrites nothing |
| `CaptureStore.RunKeepsInv` | tools/browser_capture_store.py:274-325 | after any sequence of crashed adds and rebuilds every committed sidecar matches present image bytes and caption |
| `CaptureStore.NothingIsOverwritten` | tools/browser_capture_store.py:167-214 | whatever is published at any moment of a run stays as it is to its end |
| `CaptureStore.ReadsBackIffStable` | tools/browser_capture_store.py:227-271 | a committed sidecar reads back as its own record exactly when the sanitiser leaves its permalink alone |
| `CaptureStore.FinishedAddIsListed` | tools/browser_capture_store.py:317-319 | after a finished add the three snapshots agree and list every sidecar, none as invalid |
| `CaptureStore.AddAnswers` | tools/browser_capture_store.py:274-319 | a finished add in full: what is refused and how far it came, what is a duplicate, what is added |
| `CaptureStore.AddInStages` | tools/browser_capture_store.py:299-319 | how far an add has come after each file operation: image, caption, marker, then manifest, audit and checkpoint |
| `CaptureStore.ValidIffBacked` | tools/browser_capture_store.py:227-271 | on any files, damaged ones included, a sidecar is valid exactly when it is readable, of an acceptable record, and backed by its image and caption; it raises exactly on an unacceptable record |
| `CaptureStore.DeriveTells` | tools/browser_capture_store.py:328-371 | on any files, a rebuild lists every valid sidecar with its entry and every other as invalid, unless one raises |
| `CaptureStore.CrashConverges` | tools/browser_capture_store.py:274-319 | an add cut off after any number of steps and repeated ends with the files, snapshots and success of the uninterrupted add, up to the noted time, exactly when the crash came before the marker, or the sanitiser is stable on the permalink, or the uninterrupted add stores nothing new; the size check is taken not to depend on the time |
| `CaptureStore.CrashesConverge` | tools/browser_capture_store.py:274-319 | however often the add is cut off, with any rebuilds and any adds of captures with other file names in between, the attempt that is not cut off ends with the files and success, and when it succeeds the snapshots, that the add would have had without the earlier attempts, exactly when those left no marker, or the sanitiser is stable on the permalink, or that add stores nothing new |
| `CaptureStore.RetryIffStable` | tools/browser_capture_store.py:285-295 | repeating a stored add answers duplicate exactly when the sanitiser is stable on the permalink, and changes nothing either way |
| `CaptureStore.RetryIffAddressed` | tools/browser_capture_store.py:44-58 | with the sanitiser in place, on ASCII permalinks without a bracketed authority: repeating a stored add answers duplicate exactly when the permalink was no web address or has a host or a port other than zero, and is refused otherwise |
| `CaptureStore.UserWithoutHostIsRefused` | tools/browser_capture_store.py:44-58 | a capture with permalink `http://user@/p` is stored as `http:///p`, and repeating it is refused without change |
| `Permalink.CleanIsStableIff` | tools/browser_capture_store.py:44-58 | on ASCII URLs without a bracketed authority the sanitiser leaves its own output alone exactly when the URL is no web address or something is left of its authority |
| `Permalink.CleanOfAddress` | tools/browser_capture_store.py:44-58 | of a web address scheme and host are kept in lower case, the port without leading zeros unless it is zero, and the path; user, query and fragment are dropped |
| `Permalink.OtherIsDropped` | tools/browser_capture_store.py:44-58 | what does not begin like a web address becomes empty |
| `Permalink.UserWithoutHost` | tools/browser_capture_store.py:44-58 | a user without a host: the first pass leaves an address without host, the second leaves nothing |
| `CaptureStore.ConflictIsRefused` | tools/browser_capture_store.py:285-293 | a capture whose file stem is committed for other IDs, another record or another image is refused without any change |
| `CaptureStore.StemsCollide` | tools/browser_capture_store.py:221-224 | different valid IDs can give the same stem |
| `CommandQueue.CommandState.GuardCommand` | browser-extension/command_queue.js:6-13 | the guard holds exactly for a live port, a deadline not passed, no cancel, no pause and the current epoch and connection |
| `CommandQueue.CommandState.EnqueueCommand` | browser-extension/command_queue.js:28-43 | enqueueing sweeps stale commands, answers refusals, and appends and drains accepted ones |
| `CommandQueue.CommandState.CancelCommand` | browser-extension/command_queue.js:21-27 | a waiting command is removed and acknowledged as cancelled, a started one only marked |
| `CommandQueue.CommandState.InvalidateCommands` | browser-extension/command_queue.js:15-20 | every waiting command is answered and removed, the one in flight is marked |
| `CommandQueue.CommandState.DrainCommands` | browser-extension/command_queue.js:47-56 | the drain loop answers commands that fail the guard and starts the first that passes |
| `CommandQueue.CommandState.ExecuteEnded` | browser-extension/command_queue.js:50-56 | a finished command is answered and the drain goes on |
| `CommandQueue.RunKeepsInv` | browser-extension/command_queue.js:6-56 | entries are exactly the waiting commands and the one in flight with distinct IDs, at most eight wait, commands start in acceptance order, one at a time, uncancelled and under the epoch they were accepted in |
| `CommandQueue.EveryCommandIsAnswered` | browser-extension/command_queue.js:14-56 | on a live port terminal messages sent for an ID plus the command still held equal the commands submitted with it |
| `CommandQueue.OneTerminalPerCommand` | browser-extension/command_queue.js:14-56 | with distinct IDs every command gets exactly one terminal message, when it is no longer held |
| `CommandQueue.EnqueueAnswers` | browser-extension/command_queue.js:28-43 | in every reachable state a new command is refused with an error, waits behind the others while one runs, or starts at once, exactly as its ID, the places left, its protocol, its deadline and the session allow |
| `CommandQueue.DrainStartsFirst` | browser-extension/command_queue.js:47-56 | a drain starts the first waiting command that may run and leaves those behind it; those before it are answered with an error |
| `CommandQueue.SweepIs` | browser-extension/command_queue.js:31-31 | the sweep keeps exactly the waiting commands that may run and answers the others with an error, in order |
| `CommandQueue.FinishAnswers` | browser-extension/command_queue.js:50-55 | the end of an execution is answered with its own outcome, and the drain goes on |
| `CommandQueue.CancelAnswers` | browser-extension/command_queue.js:21-27 | a cancel takes out a waiting command and says so, marks one in flight, and finds no other |
| `CommandQueue.InvalidateAnswers` | browser-extension/command_queue.js:15-20 | every waiting command is answered with an error in order and the one in flight is marked |
| `CommandQueue.SuccessIsExecution` | browser-extension/command_queue.js:50-55 | success is reported of a command exactly as often as an execution of it ended well, and for nothing else |
| `CommandQueue.NothingStaleStarts` | browser-extension/command_queue.js:11-12 | nothing accepted before a scope change starts after it |
| `ScopePublisher.ScopePublishing.ScopeUpdate` | browser-extension/background.js:121-132 | a call joins or opens the queued batch and schedules a drain unless one is scheduled or a publish runs |
| `ScopePublisher.ScopePublishing.DrainScopeUpdates` | browser-extension/background.js:102-107 | the drain takes the queued batch and starts its publish |
| `ScopePublisher.ScopePublishing.PublishEnded` | browser-extension/background.js:108-119 | the end of a publish settles its batch and schedules the next one if any is queued |
| `ScopePublisher.RunKeepsInv` | browser-extension/background.js:97-132 | every batch is queued, being published or settled, in every reachable state |
| `ScopePublisher.OnePublishAtATime` | browser-extension/background.js:97-132 | the publish that started and did not end is the one noted, so at most one runs; no drain is scheduled beside it or twice; a queued batch always has one of the two before it |
| `ScopePublisher.DrainAlwaysPublishes` | browser-extension/background.js:102-107 | a drain that runs always finds a batch and no publish in progress |
| `ScopePublisher.SettledByLaterPublish` | browser-extension/background.js:102-132 | a promise is settled only by a publish that started after the call that returned it |
| `ScopePublisher.EveryPromiseSettles` | browser-extension/background.js:102-132 | every unsettled promise is at most three publisher steps from settling, one of which is always possible, and further calls never put it back |
| `ScopePublisher.CallsCoalesce` | browser-extension/background.js:121-132 | a call returns the promise of the batch already queued, or else of a new one |
| `ScopePublisher.SettledAsPublished` | browser-extension/background.js:102-119 | a promise is kept or broken for good as the publish for its batch succeeded or failed |
| `RateLimiter.Server.AllowRequest` | cmd/gate/server.go:85-103 | one decision and the entry it leaves, other keys untouched |
| `RateLimiter.RunKeepsInv` | cmd/gate/server.go:85-103 | the entry counts the accepted requests since its start, and requests of an earlier window lie a whole window before it |
| `RateLimiter.AcceptedSpread` | cmd/gate/server.go:85-103 | any 2*max(1, limit) successive accepted requests of a key span at least a window |
| `RateLimiter.BoundIsReached` | cmd/gate/server.go:85-103 | a run that accepts 2*limit-1 requests within one tick, so the bound is exact |
| `RateLimiter.RefusedOnlyWhenFull` | cmd/gate/server.go:96-98 | a refusal means that the last max(1, limit) accepted requests all lie less than a window back |
| `RecordPages.RecordReader.RecordIds` | cmd/agent/browser_record_read.go:79-80 | the IDs of the first 2000 rows, or failure when one is empty or repeated |
| `RecordPages.RecordReader.FitBudget` | cmd/agent/browser_record_read.go:93-93 | records are dropped from the end until the result fits; one record that does not fit fails |
| `RecordPages.RecordReader.Read` | cmd/agent/browser_record_read.go:74-94 | one call: token checks, new revision, page and next token as the script computes them |
| `RecordPages.RecordReader.Mutate` | cmd/agent/browser_record_read.go:77-78 | a change of the rows inside the subtree the observer watches marks the reading state dirty |
| `RecordPages.RecordReader.Restyle` | cmd/agent/browser_record_read.go:70-77 | a change of which rows are visible that comes from outside that subtree leaves the reading state as it is |
| `RecordPages.PagesPartition` | cmd/agent/browser_record_read.go:74-94 | a chain of successful reads, between any changes of the rows, observed or not, and other readers, has pages that continue each other; it is the beginning of the first 2000 rows of its first call exactly when each page returned the rows that stood there at that call, and a complete chain is all of them exactly when its last page also ended where they end |
| `RecordPages.ObservedChainIsExact` | cmd/agent/browser_record_read.go:74-94 | while every change of the rows during the chain is observed, the chain has exactly the beginning of those rows, each once and in order, and all of them when it is complete |
| `RecordPages.RestyleHarmsIff` | cmd/agent/browser_record_read.go:76-94 | after one unobserved change before the last page, the chain is exact exactly when the change left the rows still to be read as they were |
| `RecordPages.RestyleSkipsARow` | cmd/agent/browser_record_read.go:76-94 | a run in which a row hidden from outside the subtree makes the chain skip the next row and call itself complete |
| `RecordPages.BaseIsFirstCall` | cmd/agent/browser_record_read.go:76-77 | the rows a chain of tokens speaks about are those at its first call, without a token |
| `RecordPages.ReadAnswers` | cmd/agent/browser_record_read.go:74-94 | one call in full: it fails exactly when its token does not hold, the rows cannot be told apart, its offset lies behind them or nothing fits; else it returns the longest page that fits and a token exactly if there is a rest |
| `RecordPages.ChainAdvances` | cmd/agent/browser_record_read.go:81-94 | every page followed by another brings at least one record and a chain never has more than 2000; while every change is observed its last page brings one too, unless it is the only page |
| `RecordPages.UndisturbedReadSucceeds` | cmd/agent/browser_record_read.go:74-94 | a reader that meets no change of the rows and no other reader never fails while its budget fits one record |

## Left out

- LineDiff.ChangedLines: which of several shortest scripts is chosen is not stated; it depends on the tie-break of the greedy step. Formatting of the preview is not modelled.
- EpochFence.BrowserSession.Control: a resume refused because of a local pause is an event that does nothing. Closing the manager also ends the contexts of operations that wait; their ends are queue events of their own.
- BrowserOnce.BrowserManager.CallMutation: operations are values stored by ID, so the sharing of one `*browserOperation` between cache, caller and goroutine is not modelled; request keys and arguments stand for their hashes, which are taken to be injective; eviction is an arbitrary removal of finished operations, refined by `OperationCache`.
- BrowserOnce.BrowserManager.Open: a corrupt or unreadable record makes the whole manager fail and blocks mutations; this is one event outcome, and the reasons are not told apart.
- BrowserOnce.StartsInTime: an execution starts when it finds its context alive; the timer of that context is taken to fire when its 30 seconds are over.
- OperationCache.BrowserCache.CacheOperation: sizes are given; the JSON encoding that yields them is not modelled.
- FinishVerdict.BrowserOperation.Finish: result payloads, images, messages and error details are left out; only status, phase and error code are modelled.
- FinishVerdict.MisreportedIff: the plan of a call holds its changing sends; its reads are arbitrary. Saving a download writes a local file and sends no change. The commands the DevTools library sends on its own are not part of this model.
- JournalWriter.BrowserJournalWriter.WriteSlot: what a job writes is opaque, and a caller that stops waiting for its job is not told apart from one that waits.
- LogPaging.ReadLogFile: files are finished; growth of a log while it is read is not modelled, nor are read errors.
- LogBudget.LogWriters.Write: console output of verbose mode is left out.
- CommandOnce.NativeExecutor.ExecCommandOnce: exit codes, process identity and log paths of a session are left out; calls without a request key are left out because they share no key; session IDs are taken never to repeat.
- CommandOnce.SpawnsApart: whether a process still runs is an input of a restart; process identities and their comparison are not modelled, nor is what a process does after the agent has forgotten it.
- CaptureStore.CaptureDirectory.AddCapture: symbolic links, directory permissions, leftover temporary files and the store lock are left out; adds are serial because of the lock. SHA-256 is taken to be injective and JSON encoding to be faithful.
- CaptureStore.CrashesConverge: adds between the attempts that have the same stem without being the same add, or that put another image in the place of its image, are excluded; whichever publishes first wins (`CaptureStore.ConflictIsRefused`).
- Permalink.CleanIsStableIff: authorities in square brackets, non-ASCII URLs, and addresses without host whose path begins with two slashes are outside `Covered`, where the sanitiser is arbitrary: they depend on IP address parsing, Unicode case folding and the version of Python; Python's limit on the number of digits of an integer is not modelled.
- CaptureStore.RetryIffAddressed: holds on the permalinks `Permalink` covers; on others `CaptureStore.RetryIffStable` says the same of the sanitiser's own stability.
- CommandQueue.CommandState.EnqueueCommand: messages whose ID is no proper string are ignored by the code and left out; entries hold IDs, and the records they lead to are those of the waiting list and the one in flight.
- CommandQueue.EveryCommandIsAnswered: posting on a live port is taken to succeed; after the port is gone nothing is promised, as in the code.
- ScopePublisher.EveryPromiseSettles: what `publishScope` computes and posts is left out, including that it may end early when the access epoch moved meanwhile.
- RateLimiter.AcceptedSpread: a key is taken to be asked with one limit and one window. The time is read before the mutex is taken; that the critical sections come in the order of these times is assumed.
- RecordPages.RecordReader.Read: texts, attachments and selectors of records are left out; only whether a result of a given number of records fits the budget is modelled. How visibility is computed is left out; its changes from outside the watched subtree are an event.
- HTTP, OAuth, SQL and MCP handlers, native messaging framing, process control, DevTools calls and DOM scripts are not modelled: their meaning lies in code and systems outside the repository.
- Tool policies, argument validation, diagnostics, console labels and JSON schemas are not modelled: they would only add easy members.
