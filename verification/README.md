# The chunkserver's job, lock and write path

A chunkserver of the distributed file system runs the commands of several metadata servers and the writes of its
clients at the same time. This project models how it keeps them apart and what it promises to each of them, and proves
those promises.

The pieces, and where they are:

- **Job pools and the maintenance fence** (`MaintenanceFence.dfy`, `JobPools.dfy`, `JobLifecycle.dfy`,
  `FenceProtocol.dfy`, `JobCallbacks.dfy`). Jobs are stamped on receipt, queued, claimed by workers, answered through
  a listener's status queue and removed when their callback is called. The fence lets one metadata server's connection
  alone replicate and delete. Any number of workers, drainers and pools; every critical section is one atomic step of
  a run.
- **Chunk locks** (`ChunkLocks.dfy`, `ChunkLockTable.dfy`, `LockProtocol.dfy`, `LockInvariants.dfy`, `LockSteps.dfy`,
  `LockTheorems.dfy`, `LockRequests.dfy`, `LockOrder.dfy`, `LockFates.dfy`, `LockSessions.dfy`, `LockWaits.dfy`,
  `LockNotices.dfy`). The lock table, the lock jobs in the listeners' job tables, requests parked behind locks,
  reservations of write sessions, replacement by newer owners and detaching from closed connections. Operations that
  release the mutex half-way go on as flights that interleave with everything else. Fields marked as history are read
  by no step; they only let the theorems speak about the past.
- **Write sessions** (`WriteSessions.dfy`, `ReplyOrder.dfy`, `SessionInvariants.dfy`, `SessionSteps.dfy`,
  `SessionTheorems.dfy`, `SessionLosses.dfy`, `ClosedSessions.dfy`, `AcknowledgedWrites.dfy`, `SessionProgress.dfy`,
  `SessionBuffers.dfy`, `WriteCredits.dfy`, `ChainReplies.dfy`, `ChainRuns.dfy`, `WriteSessionObject.dfy`,
  `WriteConnections.dfy`). Blocks are acknowledged before they are on the disk, written in batches and drained when
  the connection closes, in the eager and in the flush-batching variant.
- **Buffers and the read overlay** (`OutputBuffers.dfy`, `InputBuffers.dfy`, `ChunkWrites.dfy`, `WriteJobs.dfy`,
  `ReadOverlay.dfy`, `RepliedRegistry.dfy`, `SessionReads.dfy`, `SessionDisks.dfy`). In-place interleaving under
  partial writes, coalescing of adjacent writes, statuses per block and what they say about the disk, and reads
  patched with what was acknowledged, up to what a reader sees over a whole session.
- **Truncate, duplicate and duplicate-truncate** (`Truncation.dfy`, `ChunkCopies.dfy`), with every disk operation able
  to fail.

A disk is a byte sequence or a map from blocks to bytes, a checksum is an unspecified function of a block's bytes, a
checksum expanded by zeros is the checksum of the padded bytes, callbacks are tags, and statuses of disk and network
operations are parameters.

Three properties turned out not to hold for all inputs, and the project says exactly when they do:

- *Requests that waited behind one lock are queued in the order received* holds as long as no batch leaves the lock
  while an earlier batch of it is still being queued (`LockOrder.ArrivalOrderIsKept`). Two write sessions that give up
  their reservations one after the other on different threads can do that: `LockOrder.SomeRunOvertakes` is such a run,
  and after any such step the order can break (`LockOrder.OvertakingCanBreakOrder`).
- *A close drops no acknowledged block.* A session keeps one write id for the job in flight and takes the job for its
  open job if that id is 0. For a write job it is the last id of the job's first buffer, so a close that finds such a
  job takes its callback for the open's: it abandons an acknowledged block exactly if such a write job is in flight
  and some buffer holds an acknowledged block (`ClosedSessions.CloseAbandonsIffJobPassesForOpen`). The job in flight
  may still be run, if a worker has claimed it, but nobody looks at its statuses.
  `ClosedSessions.SomeCloseAbandonsABlock` is a run that abandons a block and ends the lock with OK.
- *An acknowledged block whose write fails makes the lock end with an error* fails for the same reason, when that
  write job has been claimed and goes on to fail after the close. Once an acknowledged block has failed, the lock ends
  with OK exactly if some close took a write job in flight for the open job while no error was kept, and closing the
  chunk, if it is open, reports no error (`SessionLosses.LostBlockIsReported`). `SessionLosses.SomeLossIsNotReported`
  is a run that ends so.

## Model

| member | source | states |
|---|---|---|
| Fencing.FreshStampAdmittedIffConnectionHoldsPair | src/chunkserver/bgjobs.cc:425-462 | a stamp just taken by a connection is admitted exactly when no fence was set or that connection, not closed since, holds it |
| Fencing.EndUndoesStart | src/chunkserver/bgjobs.cc:464-476 | ending an admitted job restores the fence as it was before its start |
| Fencing.MaintenanceFence.StampFor | src/chunkserver/bgjobs.cc:425-429 | the stamp given is admitted exactly if no fence is set or the listener's current connection holds it |
| Fencing.MaintenanceFence.ConnectionClosed | src/chunkserver/bgjobs.cc:431-435 | from the close on the listener's stamps differ from those given before, and no other listener's do |
| Fencing.MaintenanceFence.SetFence | src/chunkserver/bgjobs.cc:437-452 | accepted exactly for a newer epoch or, at the current one, from the paired connection again or once that has closed; then only the new pair's jobs are admitted and the epoch is positive and no smaller than before; a refused call changes nothing |
| Fencing.MaintenanceFence.Start | src/chunkserver/bgjobs.cc:464-469 | a job starts exactly if the fence admits it; a refused start leaves no trace, and the end of an admitted one restores the fence |
| Fencing.MaintenanceFence.OthersRunning | src/chunkserver/bgjobs.cc:478-484 | true exactly if a job is running under another stamp |
| JobLifecycle.StepKeepsInv | src/chunkserver/bgjobs.cc:178-536 | every step of workers, drainers and listeners keeps all job pool invariants |
| JobLifecycle.InvHolds | src/chunkserver/bgjobs.cc:178-536 | the invariants hold in every state of every run |
| JobLifecycle.JobsStayUntilAnswered | src/chunkserver/bgjobs.cc:178-423 | in every reachable state each job in a table is referred to from exactly one place: the queue, a worker, a status queue or a drainer; and whatever refers to a job refers to one in its table |
| JobLifecycle.WorkAndCallbackOnce | src/chunkserver/bgjobs.cc:301-423 | a job's work runs at most once, its callback fires at most once and exactly when it has left the table, with the status the worker gave; a job that never ran is answered NOTDONE |
| JobLifecycle.DisabledJobNeverRuns | src/chunkserver/bgjobs.cc:257-299 | a job disabled before it is claimed never runs |
| JobLifecycle.DisablingKeepsAJobFromRunning | src/chunkserver/bgjobs.cc:240-299 | over every run: disabling a job, or all jobs of its listener, before a worker claims it keeps it from ever running |
| JobLifecycle.CallbackGetsTheStatusOfTheWork | src/chunkserver/bgjobs.cc:412-423 | over every run: the status that a job's work returned is the only one ever posted for the job or given to its callback |
| JobCallbacks.LastCallbackIsCalled | src/chunkserver/bgjobs.cc:178-363 | over every run: the callback called for a job is the one it arrived with, or the last one set since for it or for all jobs of its listener |
| JobLifecycle.CounterZeroIffAllReturned | src/chunkserver/bgjobs.cc:301-363 | in a pool without lock jobs the count of unprocessed jobs is zero exactly when no job is left and every callback has returned |
| JobLifecycle.WakeupIffStatusWaits | src/chunkserver/bgjobs.cc:486-536 | a listener's event descriptor is readable exactly while its status queue is not empty |
| FenceProtocol.OthersRunningDecidesExclusive | src/chunkserver/bgjobs.cc:464-484 | the running counts equal the jobs between start and end, so that an empty count of others means no foreign replicate or delete is executing |
| FenceProtocol.AcknowledgedFenceIsExclusive | src/chunkserver/master_connection.cc:1077-1095 | tracking on before any replicate or delete: from the acknowledgement until the pair changes, every replicate or delete executing that is not the chunkserver's own carries the pair's stamp |
| FenceProtocol.ClaimsFollowTheFence | src/chunkserver/bgjobs.cc:389-423 | at every claim of every run: an enabled job runs, unless it is a replicate or delete not the chunkserver's own, tracking is on and the fence is held by another stamp; if it runs the fence counts it exactly if it is such a job, and if not it never will and its callback gets NOTDONE |
| FenceProtocol.ReceiptStampsTheConnection | src/chunkserver/bgjobs.cc:555-566 | a replicate or delete stamped on receipt passes the fence as it then is exactly if none is set or the connection that sent it holds it; a stamp that came with the job is kept |
| FenceProtocol.JobsKeepTheirStamps | src/chunkserver/bgjobs.cc:178-221 | over every run: a job keeps the stamp and the operation it arrived with |
| FenceProtocol.FencedEpochNeverDecreases | src/chunkserver/bgjobs.cc:437-452 | over every run the pair's epoch never decreases and is never 0, and a pair once set stays set |
| FenceProtocol.ReplacedPairNeverReturns | src/chunkserver/bgjobs.cc:425-462 | a pair that was replaced is never the pair again and its stamp is never admitted again |
| FenceProtocol.RefusedJobsNeverRun | src/chunkserver/bgjobs.cc:388-423 | a tracked replicate or delete not started when its stamp is refused for good never runs |
| FenceProtocol.LeftoverJobsNeverRun | src/chunkserver/bgjobs.cc:388-462 | jobs of a replaced pair that had not started never run |
| FenceProtocol.UnfencedJobsNeverRun | src/chunkserver/bgjobs.cc:388-462 | once a fence is set, tracked jobs stamped without one never run |
| ChunkLockTable.LockTable.DetachLockJobs | src/chunkserver/bgjobs.cc:637-683 | the loop moves exactly the listener's lock jobs that get a callback, each under a fresh id of the target, and outdates the connection; for a missing or the same listener nothing changes |
| ChunkLockTable.ProtocolDetaches | src/chunkserver/bgjobs.cc:656-682 | the protocol's detach step does to the table what the loop over the entries does |
| LockSteps.StepKeepsInv | src/chunkserver/bgjobs.cc:555-908 | every step, with any interleaving of half-done operations, keeps all lock manager invariants |
| LockSteps.InvHolds | src/chunkserver/bgjobs.cc:555-908 | the invariants hold in every state of every run |
| LockTheorems.EachLockHasItsOwnJob | src/chunkserver/bgjobs.cc:595-757 | in every reachable state each entry names a lock job present in its listener's table, different entries name different jobs, and none of them was ever in the job queue |
| LockTheorems.EpochsOnlyGrow | src/chunkserver/bgjobs.cc:624-657 | connection epochs never decrease over a run |
| LockTheorems.DetachedListenerStaysEmpty | src/chunkserver/bgjobs.cc:637-704 | after a detach that covers the listener's locks the listener owns none, until a start for it over a newer connection or a detach onto it gives it one; starts sent over the closed connection install nothing, and what other listeners start does not matter |
| LockRequests.RequestsAreConserved | src/chunkserver/bgjobs.cc:555-593 | from its receipt on every request is at exactly one place, parked, in transit or entered into the queue, with the listener and stamp it was received with |
| LockRequests.LogOnlyGrows | src/chunkserver/bgjobs.cc:746-756 | what entered the queue stays entered |
| LockRequests.DeferredCountIsExact | src/chunkserver/bgjobs.cc:228-234 | a listener's count of deferred jobs is the number of its requests parked or in transit; at zero no lock and no flight of a lock holds one |
| LockRequests.OnlyHeldLocksMakeWait | src/chunkserver/bgjobs.cc:788-804 | nothing waits behind an entry with neither a joined session nor a reservation; `LockWaits.RequestsWaitIffHeld` has both directions |
| LockWaits.MarkedIffJoined | src/chunkserver/bgjobs.cc:759-776 | over every run: a lock bears the mark that makes requests wait exactly if some session has joined it |
| LockWaits.CountedIffReserved | src/chunkserver/bgjobs.cc:778-804 | over every run: its count of reservations is positive exactly if a session reserved it, by a setup in identity mode at the lock's version, and has not settled since |
| LockWaits.RequestsWaitIffHeld | src/chunkserver/bgjobs.cc:567-594 | over every run: a request received waits behind the lock of its part, last in the line, exactly if a session has joined that lock or has reserved it and not settled yet; otherwise it goes straight on |
| LockWaits.JoinedLocksKeepRequests | src/chunkserver/bgjobs.cc:788-804 | over every run: requests behind a joined lock stay there, in order, until the lock leaves the table |
| LockWaits.StartTakesEffectIff | src/chunkserver/bgjobs.cc:685-757 | over every run: a start gives the part a new lock of its owner at its version exactly if it comes over the current connection and the part has no lock or, in identity mode, an older one of another server; otherwise it changes nothing |
| LockWaits.LocksAreAsStarted | src/chunkserver/bgjobs.cc:736-743 | over every run: every lock in the table was started there by its owner under a new identity, and its version is the last one its owner announced in identity mode, or else the one it was started with |
| LockNotices.NoticeCarriesTheEndStatus | src/chunkserver/bgjobs.cc:850-864 | over every run: when a lock's callback is called for a lock that a session ended, the status it gets is the one the session ended with |
| LockNotices.NoticesAreDirected | src/chunkserver/bgjobs.cc:612-683 | over every run: the listener and callback that a lock's notice goes to are those it was started with, until its connection closes and it is moved to another listener or given another callback |
| LockOrder.ArrivalOrderIsKept | src/chunkserver/bgjobs.cc:746-804 | if no step takes requests from a lock while an earlier batch of it is on its way, the requests of the lock enter the queue in the order received |
| LockOrder.OvertakingCanBreakOrder | src/chunkserver/bgjobs.cc:788-804 | after any step that does so the run can go on to a queue in the wrong order |
| LockOrder.SomeRunOvertakes | src/chunkserver/bgjobs.cc:788-804 | a run of ten steps from the start that ends in such a step |
| LockFates.ReservationsCountOpenSessions | src/chunkserver/bgjobs.cc:778-804 | an entry's reservations are exactly the sessions that hold its identity and have not settled, so they never go below zero |
| LockFates.FateIsFinal | src/chunkserver/bgjobs.cc:806-848 | how a lock left the table is decided once |
| LockFates.EndsAreExclusive | src/chunkserver/bgjobs.cc:850-908 | at most one notice or one silent drop per lock and never both; one callback at most, after a notice; no notice for a lock erased or replaced |
| LockFates.QuietLocksAreSettled | src/chunkserver/bgjobs.cc:746-908 | with all flights landed and all statuses received, every lock is in the table, or had exactly one callback if a session ended it, or was dropped exactly once |
| LockFates.LocksEndRightfully | src/chunkserver/chunk_high_level_ops.cc:345-373 | in identity mode a session ends only a lock that it joined: by an open of its own that found the part at the session's version, and the lock too unless that was still under Master, or at its setup if that was under Master; an owner erases only its own lock; a lock gives way only to a strictly newer one of another owner |
| LockSessions.RefusedSessionEndsNoLock | src/chunkserver/chunk_high_level_ops.cc:345-373 | a session whose open finds no part or another version ends no lock, neither the one it reserved nor any later one, in any state of the run |
| ReplyOrder.ReplyFromKeepsOrder | src/chunkserver/chunk_high_level_ops.cc:923-943 | instant replies keep replied blocks in front of all others, touch no buffer of a running job and go through only if everything is replied |
| ReplyOrder.ReplyFromReplies | src/chunkserver/chunk_high_level_ops.cc:904-943 | each reply costs one credit, credits never become negative, and the client hears the next ids in order |
| ReplyOrder.EnoughCreditsReplyAll | src/chunkserver/chunk_high_level_ops.cc:923-952 | with credits for all blocks and no unreplied buffer in a job every block is replied |
| SessionSteps.SettleKeepsErrors | src/chunkserver/chunk_high_level_ops.cc:610-623 | the first error among the blocks replied before is kept, and a closing session tells the client nothing |
| SessionSteps.SettleReplies | src/chunkserver/chunk_high_level_ops.cc:610-623 | the client hears OK for every block not replied before, up to the first error, which ends it |
| SessionSteps.LossesAreFirst | src/chunkserver/chunk_high_level_ops.cc:587-623 | skipping as many statuses as blocks were replied is right: those are the statuses of exactly the replied blocks |
| SessionSteps.StepKeepsInv | src/chunkserver/chunk_high_level_ops.cc:333-953 | every operation of a write session keeps all its invariants |
| SessionTheorems.InvHolds | src/chunkserver/chunk_high_level_ops.cc:333-953 | the invariants hold in every state of every run |
| SessionTheorems.RepliedBlocksComeFirst | src/chunkserver/chunk_high_level_ops.cc:877-953 | in every reachable state the replied blocks are the first of those in queued and current buffers |
| SessionTheorems.ClientHearsEachIdOnceInOrder | src/chunkserver/chunk_high_level_ops.cc:375-398 | a client at the end of a chain hears OK for the open and then each write id at most once, in order and without gaps, up to the first error |
| SessionTheorems.FirstErrorIsNextInOrder | src/chunkserver/chunk_high_level_ops.cc:610-623 | the first error is for the first block not answered yet |
| SessionLosses.LostBlockIsReported | src/chunkserver/chunk_high_level_ops.cc:778-876 | over every run: once an acknowledged block has failed in a write job, whether the session looked at the job's statuses or not, the session has a lock, and the status that ends it is an error exactly if the close of the open chunk reports one or no close took a write job in flight for the open job while no error was kept |
| SessionLosses.SomeLossIsNotReported | src/chunkserver/chunk_high_level_ops.cc:405-421 | a run of five steps from the setup on in which an acknowledged block fails in its write job and the lock ends with OK |
| SessionLosses.LockEndsWithOkIff | src/chunkserver/chunk_high_level_ops.cc:862-876 | over every run: a lock ends with OK exactly if no acknowledged block failed in a job the session looked at and the close of the chunk, if it is open, reports no error |
| SessionLosses.StandardChunksAnswerAfterWriting | src/chunkserver/chunk_high_level_ops.cc:878-890 | over every run on a standard chunk: no block is acknowledged before its write job has finished, none is ever lost, and a client at the end of a chain was told OK only for the first of the ids written |
| SessionTheorems.CompleteSessionIsWritten | src/chunkserver/chunk_high_level_ops.cc:727-776 | when a sealed session is complete no buffer holds an acknowledged block |
| ClosedSessions.CloseAbandonsIffJobPassesForOpen | src/chunkserver/chunk_high_level_ops.cc:778-834 | over every run, with any write ids and in both variants: a close that has drained has left an acknowledged block behind exactly if, when it came, a write job was in flight whose first buffer's last id was 0 and a buffer held an acknowledged block; then every buffer is as it was at the close and no status of theirs was looked at |
| ClosedSessions.SomeCloseAbandonsABlock | src/chunkserver/chunk_high_level_ops.cc:333-335 | a run of five steps from the setup on that ends with an acknowledged block abandoned and the lock's end status OK |
| SessionTheorems.DroppedBuffersWereUnreplied | src/chunkserver/chunk_high_level_ops.cc:795-818 | a close after the open was answered drops only buffers without a replied block |
| AcknowledgedWrites.BackedHolds | src/chunkserver/chunk_high_level_ops.cc:579-630 | in every reachable state a client at the end of a chain was told OK for no more blocks than have been written or are replied in a buffer, and for exactly as many while a buffer holds a replied block |
| AcknowledgedWrites.AnsweredAreWrittenIffNoneHeld | src/chunkserver/chunk_high_level_ops.cc:375-398 | in every reachable state the ids the client was told OK for are, in order, the first of those whose write jobs have finished exactly if no buffer holds an acknowledged block |
| AcknowledgedWrites.CompleteAnswersAreWritten | src/chunkserver/chunk_high_level_ops.cc:774-776 | so they are when a session is complete |
| AcknowledgedWrites.ClosedAnswersAreWritten | src/chunkserver/chunk_high_level_ops.cc:778-834 | and when a close has drained, exactly unless it took a write job for the open job while a buffer held an acknowledged block |
| SessionTheorems.CloseCountsCallbacks | src/chunkserver/chunk_high_level_ops.cc:778-834 | what a close adds to the pending count is the number of callbacks that come, for open, running and batched jobs, and one is due exactly while the count is positive |
| SessionTheorems.FlushAccountsForEveryBuffer | src/chunkserver/chunk_high_level_ops.cc:433-536 | while batching, every queued buffer is enqueued, in a released batch or ready, and a job always finds its whole batch |
| SessionTheorems.SealedSessionHasNothingReady | src/chunkserver/chunk_high_level_ops.cc:727-772 | a sealed batching session has no buffer outside a released batch |
| SessionProgress.NeverIdleWithWork | src/chunkserver/chunk_high_level_ops.cc:564-577 | until an error or a close, a session without a job in flight has nothing to write: no queued buffer and no received block, or no released batch |
| SessionBuffers.BuffersNeverOverflow | src/chunkserver/chunk_high_level_ops.cc:651-668 | over every run, with room for at least one block per job: no buffer holds more blocks than it was made for, and none was made for more than a write job may have |
| WriteCredits.CreditsAreConserved | src/chunkserver/io_buffers.cc:302-311 | available credits and those of replied blocks in buffers add up to the same over every step |
| ChainReplies.ChainAnswersNeedBoth | src/chunkserver/chunk_high_level_ops.cc:388-397 | inside a chain a write id is answered exactly once both servers reported it, in either order, and waits exactly while one has |
| ChainRuns.AnswersPairReports | src/chunkserver/chunk_high_level_ops.cc:375-398 | over every run of a session inside a chain, with the next server's statuses interleaved in any way, as long as no error was told: a write id has been answered half as often as the session, in the order received, and the next server have reported it together, and it waits exactly if that number is odd |
| ChainRuns.AnsweredOnceBothReported | src/chunkserver/chunk_high_level_ops.cc:388-397 | so an id that each of the two reports at most once is answered exactly when both have, and waits exactly while one has |
| ChainRuns.SealedIffAllAcknowledged | src/chunkserver/chunk_high_level_ops.cc:727-772 | a session gets sealed exactly if its lock is settled, every block it has is whole and replied, and no id waits for one of the two servers |
| ChainRuns.SealedSessionsAreAnswered | src/chunkserver/chunk_high_level_ops.cc:727-772 | over every run without an error told: when a session gets sealed, inside a chain every id was answered half as often as both servers reported it with none left over, and at the end of a chain every id received was answered in order |
| WriteConnections.ClosedWhenDrained | src/chunkserver/chunkserver_entry.cc:205-217 | the pending count is zero exactly if no session waits for a callback, and then an acknowledged block is left only in a session whose close took a write job for the open job |
| WriteConnections.Connection.CloseJobs | src/chunkserver/chunkserver_entry.cc:704-715 | every session is closed and the count is the sum of their callbacks; closed at once exactly if there are none; a session leaves its buffers exactly if its write job passes for the open job |
| WriteConnections.Connection.Callback | src/chunkserver/chunk_high_level_ops.cc:400-421 | the connection is closed at the last callback and not before, and no callback changes which sessions leave their buffers |
| WriteSessionObject.WriteSession.TryInstantReply | src/chunkserver/chunk_high_level_ops.cc:877-953 | the loops over buffers and blocks do what `Session.TryReply` says |
| WriteSessionObject.WriteSession.WriteFinished | src/chunkserver/chunk_high_level_ops.cc:579-630 | the loops over the job's buffers and statuses do what `Session.WriteDone` says |
| WriteSessionObject.WriteSession.CloseDelayed | src/chunkserver/chunk_high_level_ops.cc:778-834 | the loop that drops buffers and the count do what `Session.DelayedClose` says |
| WriteSessionObject.WriteSession.Seal | src/chunkserver/chunk_high_level_ops.cc:727-772 | the session is sealed exactly as `Session.TrySeal` says |
| WriteSessionObject.WriteSession.Cleanup | src/chunkserver/chunk_high_level_ops.cc:836-875 | all buffers and credits are given back, and the lock's end carries the session's untold error or else the close's |
| OutputBuffers.StreamFrom | src/chunkserver/io_buffers.h:206-212 | the stream is block by block the i-th header, the i-th checksum and the i-th block |
| OutputBuffers.OutputBuffer.PreparePacket | src/chunkserver/io_buffers.cc:56-69 | header and checksum copied in front of a block change nothing of what is still to be sent |
| OutputBuffers.OutputBuffer.WriteOut | src/chunkserver/io_buffers.cc:53-81 | under any outcome of the writes, what was sent and what is pending is what was pending; done exactly if nothing is pending |
| OutputBuffers.OutputBuffer.Send | src/chunkserver/io_buffers.cc:53-81 | however often it is called again, a call that is done has sent the whole stream |
| InputBuffers.MergeKeepsMeaning | src/chunkserver/io_buffers.cc:347-375 | executing a merged operation is executing the operation and then the added block, bytes and checksums |
| InputBuffers.AddWrite | src/chunkserver/io_buffers.cc:356-388 | one received write more keeps the operations equal in effect to the writes one by one, and each operation standing for its own run of them |
| InputBuffers.GetWriteOperations | src/chunkserver/io_buffers.cc:341-392 | on every disk the operations do what the received writes do one by one in order; each stands for consecutive writes, one per block, and together for all of them |
| WriteJobs.Perform | src/chunkserver/bgjobs.cc:1053-1108 | the statuses of one operation: OK for the blocks the disk has, then at most one error, which is the disk's own, EINVAL for too many blocks or IO for a short write, and on only if it has them all |
| WriteJobs.PerfectDiskFits | src/chunkserver/bgjobs.cc:1060-1108 | a disk that performs every operation it is called for whole answers as the job is proved for, and only operations with too many blocks fail |
| WriteJobs.PerformAll | src/chunkserver/bgjobs.cc:1051-1117 | whatever each call answers: one status per block, OK for exactly the blocks before the first failure; these the disk has, under the other blocks of the operation that failed it may hold anything, and no operation behind that one was tried; the job stops only at an operation that did not succeed, and its error is every later block's |
| WriteJobs.JobWrite | src/chunkserver/bgjobs.cc:1037-1127 | the same from the received buffers on: wherever no failed block of the last operation tried reaches, the disk is as the blocks with status OK, written one by one, leave it |
| WriteJobs.StatusesComeBack | src/chunkserver/io_buffers.cc:403-436 | statuses dealt out to buffers and read back are the same, next to the same write ids |
| WriteJobs.ApplyStatuses | src/chunkserver/io_buffers.cc:403-426 | the loop deals out statuses to whole buffers and stops at the first that lacks some |
| ReadOverlay.ReadBuffer.PatchOne | src/chunkserver/hddspacemgr.cc:801-839 | for aligned or single-block reads, exactly the common bytes change, and the one block touched gets the checksum of its bytes |
| ReadOverlay.ReadBuffer.Patch | src/chunkserver/hddspacemgr.cc:773-842 | every byte read is that of the last replied write of a buffer without a version or with the part's, else the disk's, and every touched block's checksum is that of its final bytes; if all buffers have another version the read stays as it is |
| ReadOverlay.BlocksEnd | src/chunkserver/hddspacemgr.cc:844-862 | one past the highest block of a replied write of a buffer without a version or with the part's, 0 if there is none |
| ReadOverlay.ServedIffOfTheVersion | src/chunkserver/hddspacemgr.cc:120-124 | the writes a read is patched with are exactly the replied ones of buffers without a version or with the part's |
| ChunkWrites.DiskUnderWritesIsUnseen | src/chunkserver/hddspacemgr.cc:764-766 | how much of a registered write is on the disk makes no difference to a reader |
| ChunkWrites.RunLeavesNewest | src/chunkserver/bgjobs.cc:1052-1109 | writes performed one by one leave at every position the last one over it |
| ReadOverlay.FlushIsUnseen | src/chunkserver/chunk_high_level_ops.cc:587-608 | for a job over any batch of buffers, the last one perhaps replied in part: after it and the removal a reader sees every write of the batch and the replied ones behind; wherever no unacknowledged block of the batch lies it sees the same before the job, after it, and after the removal |
| RepliedRegistry.Registry.Insert | src/chunkserver/hddspacemgr.cc:720-749 | a first reply appends the buffer to its part's list, a later one updates it in place |
| RepliedRegistry.Registry.Remove | src/chunkserver/hddspacemgr.cc:751-762 | exactly the buffer's entry goes, the order of the others stays, and no empty list is left |
| SessionReads.RegistryHoldsReplied | src/chunkserver/chunk_high_level_ops.cc:899-942 | over every run of a session the registry holds exactly the session's buffers with replied blocks, in the order of their blocks, each with the writes that were replied |
| SessionReads.ReadsServeTheAcknowledged | src/chunkserver/hddspacemgr.cc:786-841 | so what a read at a served version patches in is sound and is exactly the acknowledged blocks whose jobs have not finished, in the order received |
| SessionReads.ReadSeesExactlyTheAcknowledged | src/chunkserver/hddspacemgr.cc:764-842 | with all finished jobs on the disk and the job in flight at any point: at every position that no unacknowledged block of that job reaches, a read returns what the acknowledged blocks leave there, and a client at the end of a chain was told OK for exactly those |
| SessionReads.OtherVersionsSeeTheDisk | src/chunkserver/hddspacemgr.cc:791-792 | over every run: a read at another version than the session's returns what the disk holds |
| SessionDisks.DiskHasTheFinished | src/chunkserver/bgjobs.cc:1037-1127 | with a disk that follows the session's write jobs, whether they fail or not: along every run and at every position not under the job in flight, the disk has the blocks of the finished jobs over what was there before, unless the last of them over the position got an error |
| SessionDisks.ReadsSeeTheAcknowledged | src/chunkserver/hddspacemgr.cc:764-842 | so along every run, wherever no unacknowledged block of the job in flight lies and the last finished block was written, a read at a served version returns what the acknowledged blocks and no others leave over what was there before the session |
| Truncation.Part.Expand | src/chunkserver/hddspacemgr.cc:2072-2090 | growing adds empty blocks with the checksum of an empty block |
| Truncation.Part.ShrinkFile | src/chunkserver/hddspacemgr.cc:2091-2173 | at implicit offsets: the old blocks cut at the length, with their checksums |
| Truncation.Part.ShrinkMapping | src/chunkserver/hddspacemgr.cc:2121-2204 | the same where the disk maps blocks itself |
| Truncation.Part.Truncate | src/chunkserver/hddspacemgr.cc:2006-2230 | success means data cut to the length and zero-filled to whole blocks with every checksum right, and comes exactly if no operation that is needed fails; a wrong length or version is refused with nothing changed, until the new version is written the data stays untouched, and whatever fails blocks wholly below the length keep bytes and checksums; every exit releases the part once and ends its I/O exactly if begun |
| Truncation.CutBlocksAreCutBytes | src/chunkserver/hddspacemgr.cc:2065-2093 | blocks cut one by one are the bytes up to the length and zeros up to whole blocks |
| ChunkCopies.ChunkCopyGuard.Unwind | src/chunkserver/hddspacemgr.cc:1553-1569 | the guard undoes, in order, exactly what was done |
| ChunkCopies.UnwoundIsSettled | src/chunkserver/hddspacemgr.cc:1534-1611 | then the source is released once, each I/O begun is ended once, the copy is kept and released or deregistered, and its files are unlinked exactly if created and not kept |
| ChunkCopies.CopyBlocks | src/chunkserver/hddspacemgr.cc:1458-1532 | a copy in batches that succeeds holds exactly the first blocks of the source, for both data layouts |
| ChunkCopies.GrowCopyTo | src/chunkserver/hddspacemgr.cc:1775-1790 | a copy longer than the source has empty blocks with their checksums |
| ChunkCopies.CutCopyTo | src/chunkserver/hddspacemgr.cc:1792-1846 | a length inside a block: that block is cut, zero-filled and has the checksum of what is left |
| ChunkCopies.Duplicate | src/chunkserver/hddspacemgr.cc:1874-1947 | whichever step fails the exit is settled; a copy kept has the source's blocks and right checksums; the source gets the new version exactly unless it is the version asked for, the source has another one or a step up to the renaming fails, and a wrong version is refused with the copy untouched |
| ChunkCopies.DuplicateTruncate | src/chunkserver/hddspacemgr.cc:2232-2345 | whichever step fails the exit is settled; a copy kept is the source cut to the length and zero-filled to whole blocks with every checksum right; the source's version and the refusals as for duplicate, and a length too large is refused with nothing changed |

## Left out

- Wrap-around of 16- and 32-bit counters, ids, epochs and versions; the model counts without bound.
- Memory ordering, real time, sockets, packet parsing and forwarding, logging and statistics.
- The job queue's order and priorities: a worker takes any queued job of its pool.
- The close branch taken while discarded reads are pending, and the read and get-blocks operations of a connection.
- Several write sessions on one part at once; the registry of a part is that of one session.
- SessionSteps.CanTake: a connection's state does not come back to the end-of-chain state within a session.
- JobLifecycle.CounterZeroIffAllReturned: for pools without lock jobs; `bgjobs.h` rules the counter out for the pool
  of the metadata server connections.
- SessionReads.ReadSeesExactlyTheAcknowledged: that finished jobs have put their blocks on the disk is a premise here;
  `SessionDisks.DiskHasTheFinished` proves it for every run, wherever the last finished block got no error.
- The straight-line methods of `ChunkLockTable.LockTable` and `WriteSessionObject.WriteSession` have no row of their
  own: each is proved to do what the operation on values does that the theorems are about.
- ReadOverlay.ReadBuffer.Patch: reads that are neither aligned nor inside one block are not covered; the code does not
  support them.
- WriteSessionObject.WriteSession.TryInstantReply: registering the buffer for the read overlay is modelled in
  `RepliedRegistry`, not here.
- WriteSessionObject.WriteSession.WriteFinished: the operations of a session that have no loop are functions on
  session values only.
- ChunkCopies.Duplicate: the copy's own version number and header format, and the look-up of the source.
- The lock manager's job tables hold no job states; what workers do with plain jobs is in the job pool model.
- Chunk file naming, disk scanning, plugins, configuration reload and the replication planner.
