/** Pausing and stopping: while a job does not run, nothing of it is leased and each chunk reports at
    most once more, whatever the agents send. */
module Pausing {
  import opened Rows
  import opened Catalogue
  import opened Database
  import opened Chunking
  import opened SchedulerSpec
  import opened DrainSpec
  import opened Requests
  import opened LeaseSafety

  /** Paused or stopped (or deleted since). */
  ghost predicate Halted(db: DB, j: nat) {
    j < db.nextJob && (j in db.jobs ==> db.jobs[j].state.Paused? || db.jobs[j].state.Stopped?)
  }

  /** The request resumes or restarts the job. */
  predicate Wakes(r: Request, j: nat) {
    r.Control? && r.driven == j && (r.command.Start? || r.command.Resume?)
  }

  predicate IsLeased(db: DB, c: nat) {
    c in db.chunks && db.chunks[c].status.Leased?
  }

  /** Reports accepted for the chunk so far, and one more if it is still leased. */
  function ReportBudget(db: DB, c: nat): nat {
    AcceptedFor(db.log, c) + if IsLeased(db, c) then 1 else 0
  }

  /** The chunk, if it exists, belongs to the job. */
  ghost predicate BelongsTo(db: DB, c: nat, j: nat) {
    c in db.chunks ==> db.chunks[c].job == j
  }

  /** Chunks known before keep their job, if they stay at all. */
  ghost predicate Known(db: DB, after: DB) {
    && db.nextChunk <= after.nextChunk
    && (forall c :: c in after.chunks && c < db.nextChunk ==> c in db.chunks && after.chunks[c].job == db.chunks[c].job)
  }

  /** Nothing of job `j` is newly leased, no budget of its chunks grows, and new chunks of it have none. */
  ghost predicate Idles(db: DB, after: DB, j: nat) {
    && Known(db, after)
    && GrantedOf(after.log, j) == GrantedOf(db.log, j)
    && (forall c: nat :: c < db.nextChunk && BelongsTo(db, c, j) ==> ReportBudget(after, c) <= ReportBudget(db, c))
    && (forall c: nat :: db.nextChunk <= c && c in after.chunks && after.chunks[c].job == j ==> ReportBudget(after, c) == 0)
  }

  lemma IdlesTransitive(a: DB, b: DB, c: DB, j: nat)
    requires Idles(a, b, j) && Idles(b, c, j)
    ensures Idles(a, c, j)
  {
    forall q: nat | q < a.nextChunk && BelongsTo(a, q, j) ensures ReportBudget(c, q) <= ReportBudget(a, q) {
      assert BelongsTo(b, q, j);
    }
    forall q: nat | a.nextChunk <= q && q in c.chunks && c.chunks[q].job == j ensures ReportBudget(c, q) == 0 {
      if q < b.nextChunk { assert BelongsTo(b, q, j); }
    }
  }

  /** No report is accepted, no chunk newly leased, and every checkpoint stays. */
  ghost predicate LeasesFall(db: DB, after: DB) {
    && Known(db, after)
    && after.log == db.log
    && (forall c :: IsLeased(after, c) ==> IsLeased(db, c))
    && (forall c :: c in after.chunks && c < db.nextChunk ==> after.chunks[c].next == db.chunks[c].next)
  }

  lemma FallTransitive(a: DB, b: DB, c: DB)
    requires LeasesFall(a, b) && LeasesFall(b, c)
    ensures LeasesFall(a, c)
  {
  }

  // ---- Requests under which leases only fall -----------------------------------------------------

  lemma InitializeFalls(db: DB, j: nat)
    requires Linked(db) && j in db.jobs
    ensures Initialize(db, j).Some? ==> LeasesFall(db, Initialize(db, j).value)
  {
    hide PreCut, OneDownload;
    var rows := PreCut(j, db.jobs[j].targets, OnlineCount(db));
    PreCutCovers(j, db.jobs[j].targets, OnlineCount(db));
    InsertedRows(db.chunks, db.nextChunk, rows);
    forall i | 0 <= i < |rows| ensures !rows[i].status.Leased? { assert Fresh(rows[i], j); }
  }

  lemma DriveFalls(db: DB, j: nat, command: Command)
    requires Linked(db) && j in db.jobs
    ensures LeasesFall(db, Drive(db, j, command))
  {
    InitializeFalls(db, j);
  }

  lemma AddRunningFalls(db: DB, job: Job)
    requires Safe(db) && job.owner.None?
    ensures AddRunning(db, job).Some? ==> LeasesFall(db, AddRunning(db, job).value)
  {
    var d := AddJob(db, job);
    AddJobSafe(db, job);
    InitializeFalls(d, db.nextJob);
    if Initialize(d, db.nextJob).Some? {
      var e := Initialize(d, db.nextJob).value;
      assert LeasesFall(db, d) && LeasesFall(e, AddRunning(db, job).value);
      FallTransitive(db, d, e);
      FallTransitive(db, e, AddRunning(db, job).value);
    }
  }

  lemma {:induction false} TransferJobsFall(db: DB, ts: seq<Transfer>, sources: seq<string>)
    requires Safe(db)
    ensures TransferJobs(db, ts, sources).Some? ==> LeasesFall(db, TransferJobs(db, ts, sources).value)
  {
    if sources != [] {
      var n := |sources| - 1;
      TransferJobsFall(db, ts, sources[..n]);
      TransferJobsSafe(db, ts, sources[..n]);
      var before := TransferJobs(db, ts, sources[..n]);
      if before.Some? {
        var job := NewJob(sources[n], TargetsOf(EntriesOf(ts, sources[n])));
        AddRunningFalls(before.value, job);
        if AddRunning(before.value, job).Some? {
          FallTransitive(db, before.value, AddRunning(before.value, job).value);
        }
      }
    }
  }

  lemma PurgeFalls(db: DB, w: nat)
    requires Linked(db)
    ensures LeasesFall(db, Purge(db, w))
  {
    hide Purge, OneDownload;
    PurgeMeans(db, w);
  }

  lemma SetDrainingFalls(db: DB, w: nat)
    requires w in db.workers
    ensures LeasesFall(db, SetDraining(db, w))
  {
  }

  lemma StartDrainFalls(db: DB, w: nat)
    requires Safe(db) && w in db.workers
    ensures StartDrain(db, w).Some? ==> LeasesFall(db, StartDrain(db, w).value)
  {
    var ts := Plan(db, w);
    TransferJobsFall(db, ts, Sources(ts));
    if TransferJobs(db, ts, Sources(ts)).Some? {
      var d := TransferJobs(db, ts, Sources(ts)).value;
      SetDrainingFalls(d, w);
      FallTransitive(db, d, SetDraining(d, w));
    }
  }

  lemma RedistributeFalls(db: DB, w: nat)
    requires Safe(db)
    ensures LeasesFall(db, Redistribute(db, w))
  {
    RedistributeCases(db, w);
    if w in db.workers && StartDrain(db, w).Some? {
      var d := StartDrain(db, w).value;
      StartDrainFalls(db, w);
      StartDrainSafe(db, w);
      PurgeFalls(d, w);
      FallTransitive(db, d, Purge(d, w));
    }
  }

  lemma {:induction false} FinalizeFalls(db: DB, held: set<nat>, order: seq<nat>)
    requires Safe(db)
    ensures LeasesFall(db, Finalize(db, held, order))
  {
    if order != [] {
      var n := |order| - 1;
      var d := Finalize(db, held, order[..n]);
      FinalizeFalls(db, held, order[..n]);
      FinalizeSafe(db, held, order[..n]);
      PurgeFalls(d, order[n]);
      FallTransitive(db, d, FinalizeOne(d, held, order[n]));
    }
  }

  lemma CloseFalls(db: DB, r: Request)
    requires r.Complete? || r.Fail?
    ensures LeasesFall(db, Apply(db, r))
  {
    hide Apply;
    CloseShape(db, r);
  }

  lemma BeatFalls(db: DB, r: Request)
    requires r.Heartbeat?
    ensures LeasesFall(db, Apply(db, r))
  {
  }

  lemma RestFalls(db: DB, r: Request)
    requires r.Tick? || r.Register? || r.MarkStale? || r.CreateJob? || r.Dismiss? || r.DismissAll?
          || r.DeleteJob? || r.DeleteItems? || r.SweepJob?
    ensures LeasesFall(db, Apply(db, r))
  {
    hide Apply;
    RestShape(db, r);
  }

  lemma OtherFalls(db: DB, r: Request)
    requires Safe(db)
    requires !r.TakeLease? && !r.Report? && !r.RetryJob?
    ensures LeasesFall(db, Apply(db, r))
  {
    if r.Control? {
      if r.driven in db.jobs { DriveFalls(db, r.driven, r.command); }
    } else if r.SweepDrained? {
      FinalizeFalls(db, r.held, r.order);
    } else if r.RemoveWorker? {
      RedistributeFalls(db, r.worker);
      PurgeFalls(db, r.worker);
    } else if r.Complete? || r.Fail? {
      CloseFalls(db, r);
    } else if r.Heartbeat? {
      BeatFalls(db, r);
    } else {
      RestFalls(db, r);
    }
  }

  // ---- Leases, reports, retries ------------------------------------------------------------------

  lemma {:induction false} NoneAccepted(log: seq<Event>, c: nat)
    requires forall i :: 0 <= i < |log| ==> log[i].chunk < c
    ensures AcceptedFor(log, c) == 0
  {
    if log != [] { NoneAccepted(log[..|log| - 1], c); }
  }

  lemma FallIdles(db: DB, after: DB, j: nat)
    requires LeasesFall(db, after) && Linked(db)
    ensures Idles(db, after, j)
  {
    forall c: nat | db.nextChunk <= c ensures AcceptedFor(db.log, c) == 0 { NoneAccepted(db.log, c); }
  }

  ghost predicate ChunkIdsBelow(db: DB) {
    forall c :: c in db.chunks ==> c < db.nextChunk
  }

  lemma GrantIdles(db: DB, c: nat, w: nat, lease: int, j: nat)
    requires c in db.chunks && db.chunks[c].job != j && ChunkIdsBelow(db)
    ensures Idles(db, Grant(db, c, w, lease), j)
  {
    AppendEvent(db.log, Granted(c, db.chunks[c].job, w));
  }

  lemma CutIdles(db: DB, i: nat, j: nat)
    requires i in db.jobs && HasUncut(db.jobs[i]) && i != j && ChunkIdsBelow(db)
    ensures Idles(db, CutPiece(db, i), j)
  {
    var piece := NextPiece(i, db.jobs[i]);
    AppendEvent(db.log, Cut(db.nextChunk, i, piece.lo, piece.hi));
  }

  lemma CutGrantIdles(db: DB, i: nat, w: nat, lease: int, j: nat)
    requires i in db.jobs && HasUncut(db.jobs[i]) && i != j && ChunkIdsBelow(db)
    ensures Idles(db, Grant(CutPiece(db, i), db.nextChunk, w, lease), j)
  {
    hide Idles;
    var e := CutPiece(db, i);
    CutIdles(db, i, j);
    GrantIdles(e, db.nextChunk, w, lease, j);
    IdlesTransitive(db, e, Grant(e, db.nextChunk, w, lease), j);
  }

  lemma ReclaimIdles(db: DB, j: nat)
    requires Linked(db)
    ensures Idles(db, ReclaimExpired(db), j) && ChunkIdsBelow(ReclaimExpired(db)) && (Halted(db, j) ==> Halted(ReclaimExpired(db), j))
  {
  }

  /** The job a lease concerns runs. */
  lemma LeasesRun(db: DB, w: nat, j: nat)
    requires Halted(db, j)
    ensures forall c :: c in Takeable(db, w) ==> db.chunks[c].job != j
    ensures j !in Cuttable(db, w)
  {
  }

  lemma LeaseIdles(db: DB, w: nat, lease: int, j: nat)
    requires Safe(db) && w in db.workers && Halted(db, j)
    ensures Idles(db, Lease(db, w, lease).0, j)
  {
    var d := ReclaimExpired(db);
    var after := Lease(db, w, lease).0;
    ReclaimIdles(db, j);
    LeasesRun(d, w, j);
    if after != db && after != d {
      if Takeable(d, w) != {} {
        GrantIdles(d, Least(Takeable(d, w)), w, lease, j);
      } else {
        CutGrantIdles(d, Least(Cuttable(d, w)), w, lease, j);
      }
      IdlesTransitive(db, d, after, j);
    }
  }

  /** A report on a chunk of a job that does not run is the chunk's last: it is recorded, the checkpoint
      is kept, and the chunk goes back to the queue. */
  lemma {:induction false} HaltedReport(db: DB, w: nat, c: nat, next: int, rs: seq<Result>)
    requires w in db.workers && Holds(db, w, c) && !JobRunning(db, db.chunks[c].job)
    ensures var (after, reply) := Progress(db, w, c, next, rs);
            && reply == Stored(false)
            && after.chunks[c] == db.chunks[c].Released().(next := Max(db.chunks[c].next, next))
            && (forall r :: r in rs ==> Key(db.chunks[c].job, r.id) in after.tables.items)
            && after.tables == RecordAll(db.tables, ReporterOf(db, w, db.chunks[c].job), rs)
  {
    var who := ReporterOf(db, w, db.chunks[c].job);
    RecordAllItems(db.tables, who, rs);
    forall r | r in rs ensures Mentions(rs, who, Key(db.chunks[c].job, r.id)) {
      var i :| 0 <= i < |rs| && rs[i] == r;
      assert who.KeyOf(rs[i]) == Key(db.chunks[c].job, r.id);
    }
  }

  lemma ReportIdles(db: DB, w: nat, c: nat, next: int, rs: seq<Result>, j: nat)
    requires Safe(db) && w in db.workers && Halted(db, j)
    ensures Idles(db, Progress(db, w, c, next, rs).0, j)
  {
    hide RecordAll, Coherent, UniqueRanges, OneDownload;
    if Holds(db, w, c) {
      AppendEvent(db.log, Accepted(c, db.chunks[c].job, w, Ids(rs), next));
    }
  }

  lemma RequeueOneIdles(db: DB, k: Key, j: nat)
    requires Linked(db) && k in db.tables.items
    ensures Idles(db, RequeueOne(db, k), j)
  {
    hide OneDownload;
    var after := RequeueOne(db, k);
    var singles := SingleChunks(db, k.job, k.id);
    var c := if singles == {} then db.nextChunk else Least(singles);
    AppendEvent(db.log, Event.Requeued(c, k.job));
    NoneAccepted(db.log, db.nextChunk);
    assert after.log == db.log + [Event.Requeued(c, k.job)];
  }

  lemma {:induction false} RequeueAllIdles(db: DB, ks: seq<Key>, j: nat)
    requires Safe(db) && forall i :: 0 <= i < |ks| ==> ks[i] in db.tables.items
    ensures Idles(db, RequeueAll(db, ks), j)
  {
    if ks != [] {
      var n := |ks| - 1;
      RequeueAllIdles(db, ks[..n], j);
      RequeueAllSafe(db, ks[..n]);
      RequeueOneIdles(RequeueAll(db, ks[..n]), ks[n], j);
      IdlesTransitive(db, RequeueAll(db, ks[..n]), RequeueAll(db, ks), j);
    }
  }

  lemma IdlesItself(db: DB, j: nat)
    requires Safe(db)
    ensures Idles(db, db, j)
  {
    assert LeasesFall(db, db);
    FallIdles(db, db, j);
  }

  lemma RetryIdles(db: DB, i: nat, j: nat)
    requires Safe(db) && i in db.jobs
    ensures Idles(db, Retry(db, i), j)
  {
    hide RequeueAll, RetryList, Retry, AcceptedFor, GrantedOf, Safe;
    RetryCases(db, i);
    IdlesItself(db, j);
    RequeueAllIdles(db, RetryList(db, i), j);
  }

  /** While a job is halted no request leases anything of it or lets one of its chunks report twice. */
  lemma ApplyIdles(db: DB, r: Request, j: nat)
    requires Safe(db) && Halted(db, j)
    ensures Idles(db, Apply(db, r), j)
  {
    hide Lease, Progress, Retry, Safe, Halted, Idles, LeasesFall;
    SafeLinked(db);
    IdlesItself(db, j);
    if r.TakeLease? {
      if r.worker in db.workers { LeaseIdles(db, r.worker, r.lease, j); }
    } else if r.Report? {
      if r.worker in db.workers { ReportIdles(db, r.worker, r.chunk, r.next, r.results, j); }
    } else if r.RetryJob? {
      if r.retried in db.jobs { RetryIdles(db, r.retried, j); }
    } else {
      OtherFalls(db, r);
      FallIdles(db, Apply(db, r), j);
    }
  }

  lemma SafeLinked(db: DB)
    requires Safe(db)
    ensures Linked(db)
  {
  }

  // ---- Only a resume or a start ends a halt ------------------------------------------------------

  /** The job keeps its state, or is deleted. */
  ghost predicate StateKept(db: DB, after: DB, j: nat) {
    && db.nextJob <= after.nextJob
    && (j in after.jobs ==> j in db.jobs && (after.jobs[j].state == db.jobs[j].state || after.jobs[j].state.Stopped?))
  }

  lemma InitializeStates(db: DB, i: nat, j: nat)
    requires i in db.jobs && i != j
    ensures Initialize(db, i).Some? ==> StateKept(db, Initialize(db, i).value, j)
  {
  }

  lemma AddRunningStates(db: DB, job: Job, j: nat)
    requires j < db.nextJob
    ensures AddRunning(db, job).Some? ==>
              StateKept(db, AddRunning(db, job).value, j) && j < AddRunning(db, job).value.nextJob
  {
    InitializeStates(AddJob(db, job), db.nextJob, j);
  }

  lemma {:induction false} TransferJobsStates(db: DB, ts: seq<Transfer>, sources: seq<string>, j: nat)
    requires j < db.nextJob
    ensures TransferJobs(db, ts, sources).Some? ==>
              StateKept(db, TransferJobs(db, ts, sources).value, j) && j < TransferJobs(db, ts, sources).value.nextJob
  {
    if sources != [] {
      var n := |sources| - 1;
      TransferJobsStates(db, ts, sources[..n], j);
      var before := TransferJobs(db, ts, sources[..n]);
      if before.Some? {
        AddRunningStates(before.value, NewJob(sources[n], TargetsOf(EntriesOf(ts, sources[n]))), j);
      }
    }
  }

  lemma PurgeStates(db: DB, w: nat, j: nat)
    ensures StateKept(db, Purge(db, w), j)
  {
    PurgeMeans(db, w);
  }

  lemma RedistributeStates(db: DB, w: nat, j: nat)
    requires j < db.nextJob
    ensures StateKept(db, Redistribute(db, w), j)
  {
    RedistributeCases(db, w);
    if w in db.workers && StartDrain(db, w).Some? {
      var ts := Plan(db, w);
      TransferJobsStates(db, ts, Sources(ts), j);
      PurgeStates(StartDrain(db, w).value, w, j);
    }
  }

  lemma {:induction false} FinalizeStates(db: DB, held: set<nat>, order: seq<nat>, j: nat)
    ensures StateKept(db, Finalize(db, held, order), j)
  {
    if order != [] {
      var n := |order| - 1;
      FinalizeStates(db, held, order[..n], j);
      PurgeStates(Finalize(db, held, order[..n]), order[n], j);
    }
  }

  lemma {:induction false} RequeueStates(db: DB, ks: seq<Key>)
    requires forall i :: 0 <= i < |ks| ==> ks[i] in db.tables.items
    ensures RequeueAll(db, ks).jobs == db.jobs && RequeueAll(db, ks).nextJob == db.nextJob
  {
    if ks != [] { RequeueStates(db, ks[..|ks| - 1]); }
  }

  lemma RetryStates(db: DB, i: nat, j: nat)
    requires i in db.jobs && Halted(db, j)
    ensures Halted(Retry(db, i), j)
  {
    hide RequeueAll, RetryList, Retry;
    RetryCases(db, i);
    RequeueStates(db, RetryList(db, i));
  }

  lemma DriveStates(db: DB, i: nat, command: Command, j: nat)
    requires i in db.jobs && Halted(db, j) && !Wakes(Control(i, command), j)
    ensures Halted(Drive(db, i, command), j)
  {
    if i != j { InitializeStates(db, i, j); }
  }

  lemma WorkStates(db: DB, r: Request, j: nat)
    requires r.TakeLease? || r.Report? || r.Complete? || r.Fail? || r.SweepJob?
    requires Halted(db, j)
    ensures Halted(Apply(db, r), j)
  {
  }

  lemma RestStates(db: DB, r: Request, j: nat)
    requires r.Tick? || r.Register? || r.Heartbeat? || r.MarkStale? || r.CreateJob? || r.Dismiss? || r.DismissAll?
          || r.DeleteJob? || r.DeleteItems?
    requires Halted(db, j)
    ensures Halted(Apply(db, r), j)
  {
  }

  /** A halted job stays halted until it is resumed or started again. */
  lemma HaltedStays(db: DB, r: Request, j: nat)
    requires Halted(db, j) && !Wakes(r, j)
    ensures Halted(Apply(db, r), j)
  {
    hide Lease, Progress, Drive, Retry, Redistribute, Finalize, Purge, MaybeCompleteJob;
    if r.TakeLease? || r.Report? || r.Complete? || r.Fail? || r.SweepJob? {
      WorkStates(db, r, j);
    } else if r.Control? {
      if r.driven in db.jobs { DriveStates(db, r.driven, r.command, j); }
    } else if r.RetryJob? {
      if r.retried in db.jobs { RetryStates(db, r.retried, j); }
    } else if r.SweepDrained? {
      FinalizeStates(db, r.held, r.order, j);
    } else if r.RemoveWorker? {
      RedistributeStates(db, r.worker, j);
      PurgeStates(db, r.worker, j);
    } else {
      RestStates(db, r, j);
    }
  }

  // ---- Checkpoints -------------------------------------------------------------------------------

  /** The greatest of `start` and what was reported for the chunk in the history after the first `from` events. */
  function Furthest(log: seq<Event>, from: nat, c: nat, start: int): int {
    if |log| <= from then start
    else
      var e := log[|log| - 1];
      var before := Furthest(log[..|log| - 1], from, c, start);
      if e.Accepted? && e.chunk == c then Max(before, e.next) else before
  }

  /** The checkpoints of the job's chunks moved exactly as far as reports were accepted. */
  ghost predicate Checkpoints(db: DB, after: DB, j: nat) {
    && Known(db, after) && db.log <= after.log
    && (forall c :: c in after.chunks && c < db.nextChunk && after.chunks[c].job == j ==>
          after.chunks[c].next == Furthest(after.log, |db.log|, c, db.chunks[c].next))
  }

  lemma {:induction false} FurthestJoins(log: seq<Event>, from: nat, mid: nat, c: nat, start: int)
    requires from <= mid <= |log|
    ensures Furthest(log, from, c, start) == Furthest(log, mid, c, Furthest(log[..mid], from, c, start))
  {
    if mid == |log| {
      assert log[..mid] == log;
    } else {
      var n := |log| - 1;
      FurthestJoins(log[..n], from, mid, c, start);
      assert log[..n][..mid] == log[..mid];
    }
  }

  lemma CheckpointsTransitive(a: DB, b: DB, c: DB, j: nat)
    requires Checkpoints(a, b, j) && Checkpoints(b, c, j)
    ensures Checkpoints(a, c, j)
  {
    assert c.log[..|b.log|] == b.log;
    forall q | q in c.chunks && q < a.nextChunk && c.chunks[q].job == j
      ensures c.chunks[q].next == Furthest(c.log, |a.log|, q, a.chunks[q].next)
    {
      FurthestJoins(c.log, |a.log|, |b.log|, q, a.chunks[q].next);
    }
  }

  lemma FallCheckpoints(db: DB, after: DB, j: nat)
    requires LeasesFall(db, after)
    ensures Checkpoints(db, after, j)
  {
  }

  /** One event that is no report, and no checkpoint of the job's chunks moves. */
  lemma StepCheckpoints(db: DB, after: DB, e: Event, j: nat)
    requires Known(db, after) && after.log == db.log + [e] && !e.Accepted?
    requires forall c :: c in after.chunks && c < db.nextChunk && after.chunks[c].job == j ==>
               after.chunks[c].next == db.chunks[c].next
    ensures Checkpoints(db, after, j)
  {
    AppendEvent(db.log, e);
  }

  lemma GrantCheckpoints(db: DB, c: nat, w: nat, lease: int, j: nat)
    requires c in db.chunks
    ensures Checkpoints(db, Grant(db, c, w, lease), j)
  {
    StepCheckpoints(db, Grant(db, c, w, lease), Granted(c, db.chunks[c].job, w), j);
  }

  lemma CutCheckpoints(db: DB, i: nat, j: nat)
    requires i in db.jobs && HasUncut(db.jobs[i])
    ensures Checkpoints(db, CutPiece(db, i), j)
  {
    var piece := NextPiece(i, db.jobs[i]);
    StepCheckpoints(db, CutPiece(db, i), Cut(db.nextChunk, i, piece.lo, piece.hi), j);
  }

  lemma LeaseCheckpoints(db: DB, w: nat, lease: int, j: nat)
    requires w in db.workers
    ensures Checkpoints(db, Lease(db, w, lease).0, j)
  {
    hide Checkpoints, Clash, CutPiece, Grant, HasSpace;
    var d := ReclaimExpired(db);
    var after := Lease(db, w, lease).0;
    CheckpointsItself(db, j);
    assert LeasesFall(db, d);
    FallCheckpoints(db, d, j);
    if after != db && after != d {
      if Takeable(d, w) != {} {
        GrantCheckpoints(d, Least(Takeable(d, w)), w, lease, j);
      } else {
        var i := Least(Cuttable(d, w));
        CutCheckpoints(d, i, j);
        CutIsNew(d, i);
        GrantCheckpoints(CutPiece(d, i), d.nextChunk, w, lease, j);
        CheckpointsTransitive(d, CutPiece(d, i), after, j);
      }
      CheckpointsTransitive(db, d, after, j);
    }
  }

  lemma CheckpointsItself(db: DB, j: nat)
    ensures Checkpoints(db, db, j)
  {
    assert LeasesFall(db, db);
  }

  lemma ReportCheckpoints(db: DB, w: nat, c: nat, next: int, rs: seq<Result>, j: nat)
    requires w in db.workers
    ensures Checkpoints(db, Progress(db, w, c, next, rs).0, j)
  {
    if Holds(db, w, c) {
      AppendEvent(db.log, Accepted(c, db.chunks[c].job, w, Ids(rs), next));
    }
  }

  lemma RequeueCheckpoints(db: DB, k: Key, j: nat)
    requires Linked(db) && k in db.tables.items && k.job != j
    ensures Checkpoints(db, RequeueOne(db, k), j)
  {
    hide RequeueOne;
    var c := RequeueShape(db, k);
    StepCheckpoints(db, RequeueOne(db, k), Event.Requeued(c, k.job), j);
  }

  lemma {:induction false} RequeueAllCheckpoints(db: DB, ks: seq<Key>, j: nat)
    requires Safe(db) && forall i :: 0 <= i < |ks| ==> ks[i] in db.tables.items && ks[i].job != j
    ensures Checkpoints(db, RequeueAll(db, ks), j)
  {
    hide Checkpoints, RequeueOne, Safe, Linked;
    CheckpointsItself(db, j);
    if ks != [] {
      var n := |ks| - 1;
      var d := RequeueAll(db, ks[..n]);
      RequeueAllCheckpoints(db, ks[..n], j);
      RequeueAllSafe(db, ks[..n]);
      SafeLinked(d);
      RequeueCheckpoints(d, ks[n], j);
      CheckpointsTransitive(db, d, RequeueAll(db, ks), j);
    }
  }

  lemma RetryCheckpoints(db: DB, i: nat, j: nat)
    requires Safe(db) && i in db.jobs && i != j
    ensures Checkpoints(db, Retry(db, i), j)
  {
    hide RequeueAll, RetryList, Retry, Safe;
    RetryCases(db, i);
    CheckpointsItself(db, j);
    RequeueAllCheckpoints(db, RetryList(db, i), j);
  }

  /** Every request but the job's own retry moves its checkpoints only as far as it reports. */
  lemma ApplyCheckpoints(db: DB, r: Request, j: nat)
    requires Safe(db) && r != RetryJob(j)
    ensures Checkpoints(db, Apply(db, r), j)
  {
    hide Lease, Progress, Retry, Safe, Checkpoints, LeasesFall;
    CheckpointsItself(db, j);
    if r.TakeLease? {
      if r.worker in db.workers { LeaseCheckpoints(db, r.worker, r.lease, j); }
    } else if r.Report? {
      if r.worker in db.workers { ReportCheckpoints(db, r.worker, r.chunk, r.next, r.results, j); }
    } else if r.RetryJob? {
      if r.retried in db.jobs { RetryCheckpoints(db, r.retried, j); }
    } else {
      OtherFalls(db, r);
      FallCheckpoints(db, Apply(db, r), j);
    }
  }

  lemma {:induction false} RunCheckpoints(db: DB, rs: seq<Request>, j: nat)
    requires Safe(db) && RetryJob(j) !in rs
    ensures Safe(Run(db, rs)) && Checkpoints(db, Run(db, rs), j)
  {
    hide Checkpoints, Safe;
    CheckpointsItself(db, j);
    if rs != [] {
      var n := |rs| - 1;
      var before := Run(db, rs[..n]);
      RunCheckpoints(db, rs[..n], j);
      ApplyCheckpoints(before, rs[n], j);
      ApplySafe(before, rs[n]);
      CheckpointsTransitive(db, before, Run(db, rs), j);
    }
  }

  /** With at most one report accepted since, the checkpoint is what it was or what that report brought. */
  lemma {:induction false} FurthestOfOne(log: seq<Event>, from: nat, c: nat, start: int)
    requires from <= |log|
    ensures AcceptedFor(log[..from], c) <= AcceptedFor(log, c)
    ensures AcceptedFor(log, c) == AcceptedFor(log[..from], c) ==> Furthest(log, from, c, start) == start
    ensures AcceptedFor(log, c) == AcceptedFor(log[..from], c) + 1 ==>
              exists i :: from <= i < |log| && log[i].Accepted? && log[i].chunk == c
                          && Furthest(log, from, c, start) == Max(start, log[i].next)
  {
    if from == |log| {
      assert log[..from] == log;
    } else {
      var n := |log| - 1;
      assert log[..n][..from] == log[..from];
      FurthestOfOne(log[..n], from, c, start);
      if AcceptedFor(log, c) == AcceptedFor(log[..from], c) + 1 && !(log[n].Accepted? && log[n].chunk == c) {
        var i :| from <= i < n && log[..n][i].Accepted? && log[..n][i].chunk == c
                 && Furthest(log[..n], from, c, start) == Max(start, log[..n][i].next);
        assert log[i] == log[..n][i];
      }
    }
  }

  /** Leasing an existing chunk keeps its range and its checkpoint. */
  lemma LeaseResumes(db: DB, w: nat, lease: int)
    requires w in db.workers && Linked(db)
    ensures var (after, reply) := Lease(db, w, lease);
            reply.Given? ==>
              && Holds(after, w, reply.chunk)
              && (reply.chunk in db.chunks ==>
                    SameRange(db.chunks[reply.chunk], after.chunks[reply.chunk])
                    && after.chunks[reply.chunk].next == db.chunks[reply.chunk].next)
  {
    hide OneDownload, Clash, HasSpace;
  }

  // ---- The run theorem ---------------------------------------------------------------------------

  lemma {:induction false} HaltedRun(db: DB, rs: seq<Request>, j: nat)
    requires Safe(db) && Halted(db, j)
    requires forall i :: 0 <= i < |rs| ==> !Wakes(rs[i], j)
    ensures Safe(Run(db, rs)) && Halted(Run(db, rs), j) && Idles(db, Run(db, rs), j)
  {
    hide Safe, Halted, Idles, Wakes;
    IdlesItself(db, j);
    if rs != [] {
      var n := |rs| - 1;
      var before := Run(db, rs[..n]);
      HaltedRun(db, rs[..n], j);
      HaltedStays(before, rs[n], j);
      ApplyIdles(before, rs[n], j);
      ApplySafe(before, rs[n]);
      IdlesTransitive(db, before, Run(db, rs), j);
    }
  }

  /** Pausing is bounded: until the next resume or start, whatever requests arrive, no chunk of the job is
      leased, a chunk leased when the pause began has at most one more report accepted, and every other chunk
      of the job, old or new, has none. */
  lemma {:induction false} PauseIsBounded(db: DB, rs: seq<Request>, j: nat, c: nat)
    requires Safe(db) && Halted(db, j)
    requires forall i :: 0 <= i < |rs| ==> !Wakes(rs[i], j)
    ensures GrantedOf(Run(db, rs).log, j) == GrantedOf(db.log, j)
    ensures c < db.nextChunk && BelongsTo(db, c, j) ==>
              AcceptedFor(Run(db, rs).log, c) <= AcceptedFor(db.log, c) + if IsLeased(db, c) then 1 else 0
    ensures c >= db.nextChunk && c in Run(db, rs).chunks && Run(db, rs).chunks[c].job == j ==>
              AcceptedFor(Run(db, rs).log, c) == 0
  {
    hide Safe, Halted, Wakes, Run;
    HaltedRun(db, rs, j);
  }

  /** `next` is the chunk's checkpoint in `db`, or, if one report was accepted since, the end of that report. */
  ghost predicate KeptOrReported(db: DB, end: DB, c: nat, next: int)
    requires c in db.chunks
  {
    || (AcceptedFor(end.log, c) == AcceptedFor(db.log, c) && next == db.chunks[c].next)
    || (&& IsLeased(db, c) && AcceptedFor(end.log, c) == AcceptedFor(db.log, c) + 1
        && exists i :: |db.log| <= i < |end.log| && end.log[i].Accepted? && end.log[i].chunk == c
                       && next == Max(db.chunks[c].next, end.log[i].next))
  }

  /** And nothing that was reported is lost: without a retry of the job, when the pause ends each chunk still
      stands at the checkpoint it had when it began, or at the end of the one report accepted since. */
  lemma {:induction false} PauseKeepsCheckpoints(db: DB, rs: seq<Request>, j: nat, c: nat)
    requires Safe(db) && Halted(db, j) && c in db.chunks && db.chunks[c].job == j
    requires RetryJob(j) !in rs && forall i :: 0 <= i < |rs| ==> !Wakes(rs[i], j)
    ensures var end := Run(db, rs); c in end.chunks ==> KeptOrReported(db, end, c, end.chunks[c].next)
  {
    hide Halted, Wakes, Run, Coherent, UniqueRanges, OneDownload;
    var end := Run(db, rs);
    PauseIsBounded(db, rs, j, c);
    RunCheckpoints(db, rs, j);
    if c in end.chunks {
      assert end.log[..|db.log|] == db.log;
      FurthestOfOne(end.log, |db.log|, c, db.chunks[c].next);
    }
  }

  /** And the next lease goes on there: after the pause, through whatever requests start or resume the job and
      come in between, whoever is given such a chunk before a further report on it holds it at exactly that
      checkpoint. */
  lemma {:induction false} LeaseAfterPause(db: DB, rs: seq<Request>, more: seq<Request>, j: nat, c: nat, w: nat, lease: int)
    requires Safe(db) && Halted(db, j) && c in db.chunks && db.chunks[c].job == j
    requires RetryJob(j) !in rs && forall i :: 0 <= i < |rs| ==> !Wakes(rs[i], j)
    requires RetryJob(j) !in more
    ensures var end := Run(db, rs);
            var later := Run(end, more);
            w in later.workers && Lease(later, w, lease).1 == Given(c) && AcceptedFor(later.log, c) == AcceptedFor(end.log, c)
            ==> && Holds(Lease(later, w, lease).0, w, c)
                && KeptOrReported(db, end, c, Lease(later, w, lease).0.chunks[c].next)
  {
    hide Halted, Wakes, Run, Lease, Safe, Linked, KeptOrReported, OneDownload, AcceptedFor;
    var end := Run(db, rs);
    var later := Run(end, more);
    RunCheckpoints(db, rs, j);
    RunCheckpoints(end, more, j);
    PauseKeepsCheckpoints(db, rs, j, c);
    SafeLinked(db);
    SafeLinked(later);
    if w in later.workers && Lease(later, w, lease).1 == Given(c) && AcceptedFor(later.log, c) == AcceptedFor(end.log, c) {
      IdBelow(db, c);
      LeaseResumes(later, w, lease);
      GivenIsThere(later, w, lease);
      assert later.log[..|end.log|] == end.log;
      FurthestOfOne(later.log, |end.log|, c, end.chunks[c].next);
    }
  }

  lemma IdBelow(db: DB, c: nat)
    requires Linked(db) && c in db.chunks
    ensures c < db.nextChunk
  {
  }

  /** A chunk given with an old id was there before. */
  lemma GivenIsThere(db: DB, w: nat, lease: int)
    requires w in db.workers
    ensures var reply := Lease(db, w, lease).1;
            reply.Given? ==> reply.chunk in db.chunks || reply.chunk >= db.nextChunk
  {
    hide Clash, HasSpace;
  }
}
