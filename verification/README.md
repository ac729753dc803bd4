# Vidhive: the block-lease protocol, verified

Vidhive scans numeric video identifiers. A *coordinator* keeps jobs, cuts their ranges into *chunks*, leases
chunks to *agents* (workers), records what they report, and removes servers once their videos have copies
elsewhere. Agents lease a chunk, work through it in batches, and report after each batch. Agents crash, requests
and replies get lost, leases expire, users pause, retry and delete, servers drain. This project models the
coordinator and the agents together and proves what holds in every run, and models four smaller components with
real arithmetic: the agent's rate limiter, the login throttle, the retry loop of a check, and the range notation.

## How it is put together

* `Rows`, `Catalogue`, `Database` — the tables as values, the unique constraints and foreign keys, and the history
  of what was cut, granted, accepted and re-queued. The history is ghost knowledge: rows are deleted, events are not.
* `Chunking`, `SchedulerSpec`, `DrainSpec`, `Requests` — what each operation does to the database, as functions.
  `Apply` is one request or sweeper action, one transaction; a refused one leaves the database as it was.
* `Service` — class `Coordinator`, the same operations as methods that update tables in place, with the loops the
  program has. Every method is proved to take the tables exactly where the specification says, and `Serve` puts them
  together: whatever is proved about `Apply` and `Run` holds of it.
* `LeaseSafety`, `LeaseTerm`, `Fencing`, `Pausing`, `Returning`, `Permanence`, `Integrity` — what every run keeps *whatever
  agents send*.
* `Starting`, `Handout`, `Recording`, `Retrying`, `Servers`, `DrainQueue` — what a client or an agent sees of single
  requests, told in terms of rows before and after, with the constants and states written out.
* `Agents`, `Runner` — the agent: as a step of the protocol (`Move`, with requests and replies that may be lost, and
  crashes) and as the program's loop; every message of the loop is a move of the protocol.
* `Ledger`, `Steps`, `Protocol`, `Measure`, `Overlap`, `Videos`, `Finishing` — what every *play* keeps, that is every
  interleaving of users, sweepers and agents that run that loop: the ledger of reported, in-hand and uncut identifiers;
  and that a running job with an end can always still be finished.
* `DrainSafety`, `DrainPlan`, `SourceBlindness`, `MixedSources` — draining: nothing is lost, it is stable, it finishes.
* `TokenBucket`, `LoginThrottle`, `Checker`, `Ranges` — the smaller components.

A play assumes what the deployment gives: each worker name is one process, and a request is either lost or processed
before that agent's next action. A stop of the agent between batches is a `Crash`.

## What the proofs found

* **Overlapping targets lose results.** In a job over finite targets, the completed result of an identifier can be
  overwritten by a later report exactly when two targets name it (`Overlap.OverwritesExactlyWhereNamedTwice`). A success
  whose identifier its job names once is never handed out again or overwritten, across any number of retries and whatever
  else that job or others overlap.
* **A target entered twice blocks its job for good.** A job over finite targets can be started exactly when no two of them
  are cut into a block with the same ends (`Starting.StartsUnlessSharing`). One that names the same range or video twice
  runs into its own unique constraint at every start (`Starting.RepeatedTargetNeverStarts`); the form stores a kinescope
  link pasted twice as two such targets (coordinator/app/web/router.py:1242-1254).
* **A copy is recognised by its number alone.** The drain check compares external identifiers and not sources, so video 9
  of one source counts as a copy of video 9 of another. `MixedSources` plays out, from the empty database, how removing
  a server with redistribution loses the only copy of a video that way, which its documentation
  (coordinator/app/api/workers.py:115-118) rules out. `SourceBlindness` gives the exact conditions under which that
  request, the removal of one drained server, and a whole pass over several lose none. Every *identifier* keeps a copy as
  long as no job names it twice.
* **The returned login wait is minimal always, and sufficient under check-then-record use**; beyond that use it is
  sufficient exactly under the condition in `LoginThrottle.WaitSufficesExactly`.
* The documentation of `initialize_job_chunks` speaks of a *single* open-ended target; with several the code keeps the first
  and drops every other target, and the model does the same.

## Model

| member | source | states |
|---|---|---|
| Chunking.TilesOrdered | coordinator/app/services/scheduler.py:118-130 | the blocks cut from a range are non-empty, no longer than the block size, inside the range, and each lies strictly after the one before |
| Chunking.TilesCover | coordinator/app/services/scheduler.py:118-130 | the blocks cover an identifier if and only if it is in the range |
| Chunking.TilesCount | coordinator/app/services/scheduler.py:118-130 | the number of blocks is the range's length divided by the block size, rounded up |
| Chunking.TargetBalanced | coordinator/app/services/scheduler.py:67-74 | any target, swapped or not, is cut into at least one and at most max(4 * workers, ceil(span / 10000)) chunks |
| Chunking.PreCutCovers | coordinator/app/services/scheduler.py:99-140 | the rows a first start inserts are fresh, and cover exactly the identifiers the targets name |
| Chunking.PreCutCount | coordinator/app/services/scheduler.py:99-140 | as many of these rows hold an identifier as targets name it |
| Chunking.PreCutDisjoint | coordinator/app/services/scheduler.py:99-140 | at most one of these rows holds an identifier if and only if at most one target names it; no identifier at all lies in two rows if and only if no two targets share one |
| Starting.TargetIsShared | coordinator/app/services/scheduler.py:67-74 | no chunk of a target holds more than its share: with w servers, four times w chunks of its length less one do not fill the target, none has over 10000 identifiers, and a link's chunk carries its address |
| Starting.FiniteStart | coordinator/app/services/scheduler.py:77-140 | a first start over finite targets changes nothing, or cuts fresh chunks that hand out exactly the named identifiers, each no more than its share of one target among the servers online, three standing in for none; the job then runs without a cursor |
| Starting.StartsUnlessSharing | coordinator/app/services/scheduler.py:114-140 | a created job over finite targets that has no chunks is started, unless two of its targets are cut into a block with the same ends for the servers online: then, and only then, the unique constraint undoes the start |
| Starting.RepeatedTargetNeverStarts | coordinator/app/db/models.py:229-234 | so a job that names the same range, either way round, or the same link twice is never started, however many servers are online |
| Starting.SeparateTargetsStart | coordinator/app/services/scheduler.py:114-140 | and one whose targets name no identifier twice always is |
| Starting.OpenEndedStart | coordinator/app/services/scheduler.py:105-112 | with an open-ended target the job runs from the start of the first such target without an end, and everything else it names is dropped |
| Starting.RangeStart | coordinator/app/services/scheduler.py:99-102 | without targets the job runs from its cursor if it has one, else from its lower end, else from 0 |
| Starting.CommandsFollowTheTable | coordinator/app/api/jobs.py:25-60 | start, pause, resume and stop take a job from exactly the states listed to the state listed, and do nothing in any other |
| Starting.CreatingAJob | coordinator/app/api/jobs.py:63-101 | a new job gets a fresh id exactly when its range is proper, its chunks have room for an identifier and the agent it is reserved for exists; otherwise nothing changes |
| Service.Coordinator.InitializeJobChunks | coordinator/app/services/scheduler.py:86-140 | first start of a job: no targets keeps lazy cutting from its own range, the first open-ended target wins, finite targets are cut in advance; a violated unique constraint undoes everything |
| Service.Coordinator.Flush | coordinator/app/db/models.py:229-234 | the rows are inserted with fresh keys if and only if none repeats a (job, start, end) in the table or in the batch |
| Service.Coordinator.ReclaimExpired | coordinator/app/services/scheduler.py:143-167 | exactly the leased chunks whose expiry has passed go back to the queue with one more attempt, and they are counted |
| Service.Coordinator.MarkStaleWorkers | coordinator/app/services/scheduler.py:170-193 | exactly the online workers silent since before the cutoff go offline, and they are counted |
| Service.Coordinator.TakePendingChunk | coordinator/app/services/scheduler.py:211-228 | the pending chunk with the least id whose job runs and is unassigned or assigned to the worker, if there is one |
| Service.Coordinator.GenerateChunk | coordinator/app/services/scheduler.py:231-262 | cuts the next piece of the running eligible job with the least id that has range left, unless the row would clash |
| Service.Coordinator.LeaseChunk | coordinator/app/services/scheduler.py:265-307 | draining and full workers get nothing, expired leases are reclaimed first, a pending chunk is preferred to a fresh cut |
| Service.Coordinator.RenewWorkerLeases | coordinator/app/services/scheduler.py:310-328 | a heartbeat renews the active chunk if the worker holds it, and no other |
| Service.Coordinator.ApplyProgress | coordinator/app/services/scheduler.py:350-425 | a report is refused unless the worker holds the chunk; otherwise the checkpoint moves forward only, every result is recorded, and the chunk is released when its job does not run |
| Service.Coordinator.RecordResult | coordinator/app/services/scheduler.py:382-407 | one result updates its item, its metadata when there is something to keep, and its download, file and group when a file was stored |
| Service.Coordinator.RecordDownload | coordinator/app/services/scheduler.py:442-479 | the item's one download row is updated or created, and the file row is added unless that path is recorded |
| Service.Coordinator.CompleteChunk | coordinator/app/services/scheduler.py:482-512 | completing a completed chunk is a no-op, everyone but the holder is fenced, any other status gives the chunk back |
| Service.Coordinator.RequeueFailedItems | coordinator/app/services/scheduler.py:522-591 | the first 1000 failed identifiers each get their own pending chunk, an existing single one rewound or a new one, and a finished job runs again |
| Service.Coordinator.MaybeCompleteJob | coordinator/app/services/scheduler.py:594-637 | a job is completed, and true returned, exactly when it runs, its cursor has passed its end (or it had chunks), and none is open |
| Service.Coordinator.UnmigratedItems | coordinator/app/services/drain.py:29-46 | the worker's completed items without a completed copy on another worker, in the order of their keys |
| Service.Coordinator.PurgeWorker | coordinator/app/services/drain.py:49-96 | its leases are released, its completed items go with all that hangs on them, references to it become NULL; returns how many items |
| Service.Coordinator.StartDrain | coordinator/app/services/drain.py:99-157 | one job per source over the distinct videos to move is created and started, the worker is marked draining and its leases released; returns how many videos |
| Service.Coordinator.FinalizeDrainedWorkers | coordinator/app/services/drain.py:174-187 | one pass over the draining workers, each check seeing the earlier purges of the pass; returns how many it removed |
| Service.Coordinator.RegisterWorker | coordinator/app/api/workers.py:48-82 | a known name keeps its row, a draining worker stays draining |
| Service.Coordinator.Heartbeat | coordinator/app/api/workers.py:150-182 | revives an offline worker but not a draining one, renews the active chunk, stores the free-space sample |
| Service.Coordinator.RemoveWorker | coordinator/app/api/workers.py:106-145 | purge at once, or drain: refused when already draining or alone, removed at once when nothing is exclusive to it |
| Service.Coordinator.Transition | coordinator/app/api/jobs.py:25-60 | the lifecycle table: a command is refused in every other state; a first start cuts the work first |
| Service.Coordinator.DismissAllErrors | coordinator/app/api/jobs.py:178-190 | exactly the failed items of the job (or of all) are cancelled |
| Service.Coordinator.CreateJob | coordinator/app/api/jobs.py:63-101 | a job is stored if and only if its range is not reversed and its agent exists |
| Service.Coordinator.Serve | coordinator/app/api/workers.py:148-272 | every request, as one transaction on the tables, is the specified step, and keeps the tables valid |
| LeaseSafety.ApplySafe | coordinator/app/services/scheduler.py:265-328 | every request, whatever it contains, keeps foreign keys, the unique constraint, and coherent leases |
| LeaseSafety.EveryRunIsSafe | coordinator/app/services/scheduler.py:143-155 | in every run from an empty database: leased iff held iff it has an expiry; the holder exists, does not drain, is the latest grantee, and may work on the job |
| Integrity.EveryRunIsWhole | coordinator/app/db/models.py:254-364 | in every run metadata, downloads, files and group links belong to items that exist, downloads name servers that exist, and item keys and server names are unique |
| Integrity.DeletingAJob | coordinator/app/api/jobs.py:204-230 | deleting a job takes exactly its chunks and items along, with all that hangs on them |
| Integrity.DeletingAServer | coordinator/app/services/drain.py:49-96 | deleting a server takes exactly the items it completed along, with all that hangs on them; its leases end, its own jobs become everybody's, nothing names it any more, and every other row stays |
| Servers.RegisteringAgain | coordinator/app/api/workers.py:57-70 | a known name keeps its row; it is online from now unless it is draining |
| Servers.HeartbeatIsNoted | coordinator/app/api/workers.py:157-177 | a heartbeat is noted with its time, its sample if it has one, and brings back any server that is not draining |
| Servers.SweepMarksTheSilent | coordinator/app/services/scheduler.py:170-193 | the sweep marks exactly the online servers offline that were never heard or last heard more than the given time ago |
| Servers.HeardStaysOnline | coordinator/app/services/scheduler.py:170-193 | in every run a server that registers, sends a heartbeat or, being online, reports stays online for the time the sweeps allow, unless it is removed or being drained |
| Fencing.FencedOut | coordinator/app/services/scheduler.py:365-368 | progress, failure and first completion from anyone but the holder change nothing at all |
| Fencing.OnlyTheHolderIsHeard | coordinator/app/services/scheduler.py:365-368 | in every run each accepted report came from the worker the chunk was last granted to |
| Fencing.OnlyTheHolderActs | coordinator/app/services/scheduler.py:482-512 | in every run a report, completion or failure that changes any chunk, item or history entry comes from the worker its chunk was last granted to |
| Fencing.RepeatedReport | coordinator/app/services/scheduler.py:350-425 | sending an accepted report again changes no result, metadata, download, file, group link, checkpoint or lease holder |
| Fencing.NoDeadlock | coordinator/app/services/scheduler.py:594-637 | when a healthy worker is given nothing, a running job it may work on can be completed exactly when nobody holds one of its chunks and it is bounded or had chunks |
| Handout.SentAway | coordinator/app/services/scheduler.py:265-285 | a worker gets nothing exactly when it is draining, reports less than five free gigabytes, or no chunk is free or overdue and no job has a rest to cut, among running jobs that are nobody's or its own |
| Handout.GivesTheFirstReady | coordinator/app/services/scheduler.py:211-228 | a chunk that was there is given only when it has the least id of all that are free or overdue and open to the worker; it is leased as it stands for the time asked, and every other overdue chunk goes back with one more attempt |
| Handout.CutsFromTheFirstJob | coordinator/app/services/scheduler.py:231-262 | a chunk is cut only when none is ready, from the first job with a rest: it starts at the cursor, has as many identifiers as the job's chunk size unless the job ends earlier, and the cursor moves just past it |
| LeaseTerm.LeaseLasts | coordinator/app/services/scheduler.py:291-293 | a chunk given for s seconds is its worker's in every run for those s seconds, unless that worker ends it, reports on a halted job or shortens it, the job is retried or deleted, or the worker is removed |
| LeaseTerm.ReportExtends | coordinator/app/services/scheduler.py:377-379 | an accepted report on a running job keeps the chunk its worker's for 120 more seconds in the same sense |
| LeaseTerm.HeartbeatExtends | coordinator/app/services/scheduler.py:310-328 | a heartbeat that names the chunk keeps it its worker's for the lease it asks for, in the same sense |
| LeaseTerm.LeaseEnds | coordinator/app/services/scheduler.py:143-155 | and not longer: once more than s seconds have passed without a report or a heartbeat about it, the next worker that asks finds the chunk free or handed out anew |
| LeaseTerm.ReportExtensionEnds | coordinator/app/services/scheduler.py:377-379 | nor does a report keep it for more than 120 seconds |
| LeaseTerm.HeartbeatExtensionEnds | coordinator/app/services/scheduler.py:310-328 | nor a heartbeat for more than it asks for |
| Handout.ReportMovesTheChunk | coordinator/app/services/scheduler.py:374-412 | the holder's report moves the checkpoint forward or leaves it; while the job runs it is told to go on and keeps the chunk 120 seconds, otherwise it is told to stop and the chunk goes back |
| Handout.CompletionEndsTheChunk | coordinator/app/services/scheduler.py:482-512 | the holder's completion closes the chunk where it stands, and completes its running job exactly when every other chunk of it is closed and its cursor, if any, has passed its end |
| Handout.FailureReturnsTheChunk | coordinator/app/services/scheduler.py:505-510 | any other ending returns the chunk with one more attempt and its checkpoint |
| Handout.SweepCompletes | coordinator/app/services/scheduler.py:594-637 | the sweep completes a running job exactly when it has no open chunk and its cursor has passed its end, or it has no cursor and had chunks |
| Permanence.OpenEndedAlwaysHasWork | coordinator/app/services/scheduler.py:231-262 | in every play, while an open-ended job runs, a healthy worker that may take it is given a chunk: it is neither turned away nor refused by the constraint |
| Pausing.HaltedReport | coordinator/app/services/scheduler.py:409-412 | a report on a chunk of a paused or stopped job is recorded, its checkpoint kept, and the chunk released |
| Pausing.HaltedStays | coordinator/app/api/jobs.py:25-60 | only a start or resume of the job itself ends a pause or stop |
| Pausing.PauseIsBounded | coordinator/app/services/scheduler.py:216-228 | until the next resume or start, in every run, no chunk of the job is leased, a chunk leased when the pause began reports at most once more, and every other one, new ones included, not at all |
| Pausing.PauseKeepsCheckpoints | coordinator/app/services/scheduler.py:374-412 | in every such run without a retry of the job, each chunk still there stands at the checkpoint it had when the pause began, or at the greater of it and the end of the one report accepted since |
| Pausing.LeaseAfterPause | coordinator/app/services/scheduler.py:265-307 | and after the pause, through whatever requests start or resume the job and come in between, short of a retry of it, whoever is given such a chunk before a further report on it holds it at exactly that checkpoint |
| Returning.AbandonedChunksComeBack | coordinator/app/services/scheduler.py:310-328 | in every run, whatever agents send, heartbeats that do not name a chunk never keep its lease alive: once it is over, the next worker whose request for work is not refused by the unique constraint finds the chunk free or handed out anew |
| Permanence.AbandonedInEveryPlay | coordinator/app/services/scheduler.py:143-167 | in every play, where that constraint never refuses, the next worker that asks finds it so |
| Returning.RetryHandsBack | coordinator/app/services/scheduler.py:544-580 | after a retry every listed identifier is pending and handed out again by its own chunk; a finished job runs again, a paused or stopped one stays as it was |
| Retrying.RetryTakesTheForemost | coordinator/app/services/scheduler.py:515-580 | a retry takes exactly the job's items that are failed, waiting for a retry or rate limited, the 1000 with the least identifiers if there are more: each becomes pending and gets its own pending chunk, rewound with one more attempt and its address kept, or new; no other item, chunk or job changes, but that a finished job runs again |
| Retrying.DismissCancels | coordinator/app/api/jobs.py:160-190 | dismissing cancels exactly those items, of one job or of all, and touches nothing else |
| Retrying.DismissCancelsOne | coordinator/app/api/jobs.py:167-175 | dismissing one item cancels it if it is such an item, and touches nothing else |
| Retrying.DismissedAreNotRetried | coordinator/app/api/jobs.py:178-190 | after a job's errors are dismissed, a retry of it finds nothing |
| Permanence.LeaseNeverConflicts | coordinator/app/services/scheduler.py:231-262 | in an orderly database a lazily cut piece never repeats an existing range |
| Permanence.ConstraintNeverBites | coordinator/app/db/models.py:229-234 | in every play ranges are unique, no lease fails on the constraint, and every job with separate input can be started |
| Permanence.EveryRunKeepsLinks | coordinator/app/services/scheduler.py:131-139 | in every run each job cut in advance has chunks, and each of its links has its single-identifier chunk with its address |
| Permanence.RetriedLinkKeepsItsAddress | coordinator/app/services/scheduler.py:544-574 | in every run, a retry of a job hands each listed link out in its own chunk, rewound, address and all, and that stays the only chunk with its range |
| Catalogue.RecordAllItems | coordinator/app/services/scheduler.py:331-347 | a report writes exactly the items it mentions, each with the outcome of one of its results and the reporter as holder |
| Catalogue.RecordAllKeeps | coordinator/app/services/scheduler.py:428-479 | recording adds rows only, rewrites no file row, and keeps one download per item |
| Catalogue.RecordTwice | coordinator/app/services/scheduler.py:382-407 | recording any list of results twice, repeated identifiers included, equals recording it once, attempts aside |
| Recording.ReportedItems | coordinator/app/services/scheduler.py:331-347 | after an accepted report each item it is about has the status and error of the last result about it and the reporter as worker, with an attempt more per result; every other item stays |
| Recording.ReportedMetadata | coordinator/app/services/scheduler.py:385-401 | its title, link, type, size and duration are those of the last result about it that is found or completed and has a title or a link; without one its metadata stays |
| Recording.ReportedDownloads | coordinator/app/services/scheduler.py:449-461 | its one download row names the reporter and the size of the last completed result with a path, zero without a size; without one it stays |
| Recording.ReportedFiles | coordinator/app/services/scheduler.py:403-479 | each new file row has the checksum and size of the first such result with its path and the reporter as host, no stored one is rewritten, and the group links added are those of the job's group |
| Runner.WorkerRunner.HandleId | agent/app/worker.py:200-236 | an identifier ends as its check said, the second one after a reroute; a found one is completed with the file's path, size and type when a download, possibly on the direct route, succeeded, and otherwise failed with at most 200 characters of the reason |
| Runner.WorkerRunner.ProcessChunkBody | agent/app/worker.py:170-198 | the i-th report holds the outcomes of the i-th block of `batch` identifiers from the checkpoint, in order, fewer only at the chunk's end, and names the identifier after it; each is sent only after the one before was acknowledged with "proceed"; the loop completes the chunk only past its end, and otherwise ends for a stop or a missing acknowledgement |
| Runner.WorkerRunner.ProcessChunk | agent/app/worker.py:153-168 | the chunk is the one heartbeats renew at every message sent while it is processed, and none is afterwards |
| Runner.LoopMovesAreEnabled | agent/app/worker.py:170-198 | every message of that loop is a move of the protocol's agent where the loop stands |
| Steps.ProgressMeans | coordinator/app/services/scheduler.py:374-402 | an accepted honest report moves only its chunk, to the end of the batch, and touches only the items of the batch |
| Steps.RequeueOneKeeps | coordinator/app/services/scheduler.py:555-574 | giving a failed identifier its own chunk keeps the ledger: nobody else has it in hand, and nothing completed comes back |
| Steps.FinishableIsDone | coordinator/app/services/scheduler.py:594-637 | what the completion check looks at implies that the job is not open-ended and every identifier was reported |
| Steps.ApplyKeeps | coordinator/app/services/scheduler.py:231-262 | every request, with reports from honest agents, keeps the ledger |
| Protocol.MovesAreHonest | agent/app/worker.py:170-191 | whatever reaches the coordinator from the agent's loop starts at the checkpoint of a chunk the agent holds, or is fenced |
| Protocol.EveryPlayIsHonest | agent/app/worker.py:170-198 | in every play, with crashes, losses, expiries, pauses, retries and purges, the ledger balances and every agent agrees with the chunk it holds |
| Protocol.CompletionIsSound | coordinator/app/services/scheduler.py:594-637 | in every play a completed job is not open-ended, and the identifiers in its accepted reports are exactly those of its range or targets |
| Protocol.WorkTilesChunks | coordinator/app/services/scheduler.py:374-379 | in every play the identifiers recorded for a chunk since it was cut or re-queued are its start up to its checkpoint, each once, in order |
| Protocol.CutsTileTheRange | coordinator/app/services/scheduler.py:247-262 | in every play the lazily cut chunks of a job follow one another exactly from its first identifier to its cursor |
| Agents.PlayIsRun | coordinator/app/api/workers.py:148-272 | what a play does to the database is the run of the requests that arrive, so what holds of every run holds of every play |
| Protocol.NothingHandedOutTwice | coordinator/app/services/scheduler.py:522-591 | in every play an identifier that an open chunk still hands out, and that its job does not name twice, is in no other chunk's hands and has no result but a re-queued one, whatever else the job overlaps |
| Finishing.CanAlwaysFinish | agent/app/worker.py:153-198 | from every state of every play, one healthy server that may work on a running job with an end can still finish it, whatever crashed, expired or was handed out before: some continuation completes the job |
| Measure.ReportCarries | coordinator/app/services/scheduler.py:374-379 | each accepted batch brings at least one result, and moves exactly its length from what is left of its job to what was recorded of it, whatever the job's input overlaps; other jobs' balances stay |
| Measure.ApplyCarries | coordinator/app/services/scheduler.py:231-262 | every other request, cutting included, keeps uncut identifiers plus the open chunks' remainders, plus what was recorded, of every started bounded job; a retry of the job adds at most 1000 |
| Measure.WorkIsConserved | agent/app/worker.py:170-191 | in every play that sum is constant while the job exists and is not retried, grows by at most 1000 for each retry, and each accepted report brings at least one result |
| Measure.AcceptedReportsBounded | agent/app/worker.py:170-191 | so in every play at most as many reports are accepted for a job, overlapping or not, as there was work left, plus 1000 for each retry |
| Measure.PreCutSlots | coordinator/app/services/scheduler.py:99-140 | the rows of a first start hold as many slots as the targets have identifiers, each counted once per target that names it |
| Measure.StartedJobReports | agent/app/worker.py:170-191 | from its first start on a bounded job has at most as many reports accepted as its input counts identifiers, plus 1000 for each retry; unretried, its results and its remaining work always add up to its input |
| Videos.CompletedItemsStand | coordinator/app/services/scheduler.py:331-347 | in every play that deletes nothing and removes no server, no completed item whose identifier its own job does not name twice is overwritten, whatever else that job or others overlap |
| Videos.AllCompletedItemsStand | coordinator/app/services/scheduler.py:331-347 | hence, when no job of the starting state names any identifier twice, no completed item at all is |
| Videos.NoVideoIsLost | coordinator/app/services/drain.py:174-187 | in every play without explicit deletions in which no job, old or new, names the video's identifier twice, a video with a completed copy keeps one, through retries, crashes and drains, whatever the jobs overlap elsewhere |
| Videos.NothingIsLost | coordinator/app/services/drain.py:174-187 | hence, when no job names any identifier twice, every video with a completed copy keeps one |
| Overlap.OverlapOverwrites | coordinator/app/services/scheduler.py:115-139 | for every identifier named by two targets, and every number of online servers with which a job over them can be started, a play in which an honest report turns its completed video into a failed one |
| Overlap.OverwritesExactlyWhereNamedTwice | coordinator/app/services/scheduler.py:115-139 | for finite targets a job can be started over with some number of online servers, and any identifier: no play, whatever other jobs it has, overwrites that identifier's completed result in a job over them, if and only if at most one target names it |
| Overlap.OverwritesExactlyOnOverlap | coordinator/app/services/scheduler.py:115-139 | hence no play overwrites any completed result of a job over them if and only if the targets are disjoint |
| DrainSafety.FinalizeKeepsCopy | coordinator/app/services/drain.py:174-187 | a pass in any order leaves a completed copy of every external id that had one, even when draining servers back each other up |
| DrainSafety.RedistributeKeepsCopy | coordinator/app/api/workers.py:122-140 | distributing a server's videos, with or without immediate removal, loses none either |
| DrainSafety.ApplyEmpties | coordinator/app/api/workers.py:64-70 | no request, whatever it contains, takes a draining server out of draining or gives it a completed item |
| DrainSafety.DrainingIsStable | coordinator/app/services/scheduler.py:269-270 | in every run a draining server stays so until removed, holds no lease, and its completed items only shrink |
| DrainSafety.FinalizeRemoves | coordinator/app/services/drain.py:174-187 | a pass removes a draining server that is not held and whose videos all have copies on servers that do not drain |
| DrainSafety.DrainingConcludes | coordinator/app/services/drain.py:99-187 | after starting a drain, in every run, once each video the server had is settled elsewhere the next pass removes it |
| DrainPlan.TransfersDistinct | coordinator/app/services/drain.py:107-126 | one transfer per distinct video |
| DrainPlan.StartDrainQueues | coordinator/app/services/drain.py:99-143 | starting a drain always succeeds and queues every exclusive video that can be fetched again, open to any server, with its link |
| DrainQueue.DrainFetchesEachVideo | coordinator/app/services/drain.py:99-143 | a drain queues a new chunk for every video that exists only on the server, unless it is a YouTube video without a stored address: by number, or by that address, from the first created of its items that can be fetched again |
| DrainQueue.DrainFetchesNothingElse | coordinator/app/services/drain.py:99-150 | every new chunk fetches such a video, no video twice; each source has one job, in the order of the identifiers, open to any server; of the old chunks those the server held go back and no other changes |
| Servers.RedistributionDecides | coordinator/app/api/workers.py:122-142 | a removal with redistribution is refused when the server is draining or no other is online; otherwise it is removed at once exactly when no video exists only on it, and drains when one does |
| Servers.PassSpares | coordinator/app/services/drain.py:174-187 | a pass never removes a server that is not draining, that is held, or that holds the only copy of a video, and such a server keeps all it completed |
| SourceBlindness.FinalizeKeepsSourcesWhen | coordinator/app/services/drain.py:29-46 | a server that passed the check is removed without losing a video of any source exactly when each of its items has a copy of the same source elsewhere |
| SourceBlindness.RedistributeKeepsSourcesWhen | coordinator/app/api/workers.py:122-145 | removing a server with redistribution loses no video of any source if and only if it is refused, or the server has an exclusive identifier and so only starts to drain, or each of its completed items has a copy of the same source elsewhere |
| SourceBlindness.PassKeepsSourcesWhen | coordinator/app/services/drain.py:174-187 | a pass over several draining servers loses no video of any source if and only if each video with a copy has one of its own source on a server that the pass, told from the tables before it, leaves |
| MixedSources.MixedSourcesLoseAVideo | coordinator/app/api/workers.py:122-145 | a play without explicit deletions, over a kinescope and a mock job as the form stores them, in which removing a server with redistribution loses the only copy of a video, because another source uses its number |
| TokenBucket.AsyncRateLimiter.Acquire | agent/app/ratelimit.py:19-30 | at once exactly when one more grant exceeds no window, otherwise after one sleep planned to end at the earliest moment that exceeds none; after any calls and delays, any n acquisitions spanning time T satisfy n <= capacity + rate * T; no rate, no limit |
| TokenBucket.AsyncRateLimiter.Refill | agent/app/ratelimit.py:25-26 | tokens grow with time up to the capacity and stay the least slack of any window |
| TokenBucket.GrantBounded | agent/app/ratelimit.py:25-29 | a grant that fits every window ending with it keeps every window of the history within its bound |
| TokenBucket.TokenMeansFits | agent/app/ratelimit.py:27-29 | a token is there if and only if one more grant keeps every window within its bound |
| TokenBucket.PlannedIsEarliest | agent/app/ratelimit.py:30 | after a full sleep of (1 - tokens) / rate a grant fits, and at no moment before |
| LoginThrottle.LoginLimiter.Prune | coordinator/app/services/ratelimit.py:39-41 | what remains of a queue are exactly its entries younger than the window |
| LoginThrottle.LoginLimiter.BlockedFor | coordinator/app/services/ratelimit.py:43-56 | refuses only what the full-history reference refuses, exactly that unless the table was cleared; the wait is minimal in whole seconds, and sufficient when no count is beyond its limit |
| LoginThrottle.LoginLimiter.RecordFailure | coordinator/app/services/ratelimit.py:58-63 | appends the failure to both windows; recording only what was allowed keeps every count within its limit; above 10000 pairs only what is younger than the window stays, never more than 50000 pairs, and nothing is cleared unless more than 50000 pairs, this one included, have a failure younger than the window |
| LoginThrottle.LoginLimiter.RecordSuccess | coordinator/app/services/ratelimit.py:65-66 | forgets the pair's failures and nobody else's |
| LoginThrottle.LoginLimiter.Collect | coordinator/app/services/ratelimit.py:68-75 | garbage collection leaves exactly the entries younger than the window and no empty queue; it starts over exactly when more than 50000 pairs still have such an entry |
| LoginThrottle.FollowsLive | coordinator/app/services/ratelimit.py:39-56 | counting in the pruned queue never gives more than counting all failures ever, and the same unless it was cleared |
| LoginThrottle.WaitIsRight | coordinator/app/services/ratelimit.py:45-56 | one second less is still refused, and the wait suffices when no count is beyond its limit |
| LoginThrottle.WaitSufficesExactly | coordinator/app/services/ratelimit.py:45-56 | in general the wait suffices if and only if, in each queue at its limit, the limit-th youngest entry has expired by then |
| LoginThrottle.NormIgnoresPadding | coordinator/app/services/ratelimit.py:35-37 | spaces around a user name do not open another window |
| LoginThrottle.NormsMatch | coordinator/app/services/ratelimit.py:35-37 | two user names share their windows if and only if, stripped, their first 150 characters differ at most in case |
| Checker.Check | agent/app/checker.py:155-203 | at most max_retries + 1 requests, stopping at the first answer that is no transport error, 429 or 5xx; the last answer decides: 401 and 403 forbidden, 429 rate limited, 5xx and transport errors retry later, 200 found when there is a stream, anything else not found; without a usable positive Retry-After the pauses sum to at most the budget |
| Checker.PausesBounded | agent/app/checker.py:141-153 | the pauses of n attempts are at most the sum of min(cap, base * 2^k) + base |
| Checker.DelaysDouble | agent/app/checker.py:141-143 | each backoff is twice the one before, starting at the base and never over the cap |
| Checker.PausesAreWaited | agent/app/checker.py:145-186 | a 429 with a positive Retry-After is waited out exactly; any other pause is the backoff plus at most one base |
| Checker.GivesUpOnlyAfterAll | agent/app/checker.py:168-191 | a transient outcome is reported if and only if every allowed request was answered transiently |
| Ranges.ParseRange | common/vidhive_common/ranges.py:32-55 | every accepted range has 0 <= start, and start <= end unless it is open-ended |
| Ranges.ParseUndoesFormat | common/vidhive_common/ranges.py:58-60 | parsing a printed range gives it back if and only if it is open-ended or not reversed; a reversed one is refused |
| Ranges.FormatIsCanonical | common/vidhive_common/ranges.py:32-60 | printing what any accepted text meant gives a text that means the same |
| Ranges.BareNumber | common/vidhive_common/ranges.py:50-53 | a bare number A means 0..A |
| Ranges.DigitsAreDecimal | common/vidhive_common/ranges.py:21-29 | numbers are decimal |
| Ranges.EmptyMeansEverything | common/vidhive_common/ranges.py:34-38 | no specification, or an empty one, means everything from zero on |
| Ranges.MissingStart | common/vidhive_common/ranges.py:46-48 | "[,B]" means 0..B |
| Ranges.Signs | common/vidhive_common/ranges.py:21-29 | a number may carry a sign, but not a negative value |
| Ranges.AcceptedIsLegible | common/vidhive_common/ranges.py:32-55 | a specification with a character other than digits, signs, brackets, commas and spaces is refused |
| Ranges.PaddingIgnored | common/vidhive_common/ranges.py:36-38 | spaces around a specification never matter |

## Left out

- HTTP, validation, sessions, row locks and skip-locked: each request is one atomic step. One sweep, a single transaction
  in the program, is a sequence of `SweepJob`, `MarkStale` and `SweepDrained` steps here, so more interleavings are covered.
- `retry_all` is a sequence of `RetryJob` requests; metrics are one free-space value per worker, which
  the sweeper's deletion of old samples (coordinator/app/main.py:130-133) does not reset; event texts, timestamps
  other than lease expiry and heartbeat, and the host name derived for metadata are not modelled.
- Explicit deletions (`mode=purge`, library and job deletion) are steps for the lease and ledger invariants, but are
  excluded from "no video is lost", being ways to lose one on purpose.
- The SSH teardown path checks copies and purges in different transactions; it appears only as the set of held servers.
  A teardown that fails puts its draining server back online (coordinator/app/web/router.py:489-490): that one way out of
  draining is not a request here, so `DrainSafety.DrainingIsStable` speaks of every run without it.
- Unconditional liveness of draining: a video whose only other copy is on another draining server is not queued, so
  `DrainSafety.DrainingConcludes` has the condition stated there.
- The drain query's order of rows is a parameter of a pass; the other ORDER BY clauses are modelled.
- Database integers are unbounded here; a target without a start is not representable; a link names one identifier, as
  everywhere in the program; a chunk always has a checkpoint (the program sets it whenever it creates one).
- A floating-point ceiling in the block size, exact below 2^53, is integer arithmetic here; clocks and rates are reals.
- Range numbers and user names are ASCII; underscores in numbers, which Python's `int` accepts, are not modelled.
- Retry-After as an HTTP date, NaN or infinite seconds: treated like an unusable header in `Checker`, not parsed.
- A batch size below one makes the agent's loop spin for ever; the model requires at least one.
- Login limits of zero, which fail in the program on an empty queue, are excluded; password checks and sessions are not modelled.
- The agent's direct-route fallback and the supervisor's route reconciliation: the outcome of a rerouted attempt is a
  parameter of `Runner.WorkerRunner.HandleId`. Downloads, metadata probes, yt-dlp and the file system are parameters too.
- Templates, library, player, notes, the event bus, accounts and deployment are not part of this model.
