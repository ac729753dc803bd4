/** A conservation law: what is left of a job, plus what was recorded of it, changes only by retries.
    Every accepted report moves its identifiers from the one to the other, so reports are bounded. */
module Measure {
  import opened Rows
  import opened Catalogue
  import opened Database
  import opened Chunking
  import opened SchedulerSpec
  import opened DrainSpec
  import opened Requests
  import opened LeaseSafety
  import opened Ledger
  import opened Steps
  import opened Agents
  import opened Protocol

  // ---- What is left of a job ---------------------------------------------------------------------

  /** What an open chunk still has to report. */
  function Slots(ch: Chunk): int {
    if ch.Open() then ch.hi + 1 - ch.next else 0
  }

  function SlotsAt(chunks: map<nat, Chunk>, j: nat, c: nat): int {
    if c in chunks && chunks[c].job == j then Slots(chunks[c]) else 0
  }

  /** The slots of the job's chunks with ids below `n`. */
  function SlotSum(chunks: map<nat, Chunk>, j: nat, n: nat): int {
    if n == 0 then 0 else SlotSum(chunks, j, n - 1) + SlotsAt(chunks, j, n - 1)
  }

  /** The identifiers of a bounded job that are not cut yet. */
  function UncutCount(db: DB, j: nat): int {
    if j in db.jobs && db.jobs[j].cursor.Some? && db.jobs[j].hi.Some?
    then Max(0, db.jobs[j].hi.value + 1 - db.jobs[j].cursor.value) else 0
  }

  /** Uncut identifiers plus, for each open chunk, what lies between its checkpoint and its end. An
      identifier that two chunks hand out counts twice. */
  function Work(db: DB, j: nat): int {
    UncutCount(db, j) + SlotSum(db.chunks, j, db.nextChunk)
  }

  /** How many results were accepted for the job. */
  function Handled(log: seq<Event>, j: nat): nat {
    if log == [] then 0
    else
      var e := log[|log| - 1];
      Handled(log[..|log| - 1], j) + if e.Accepted? && e.job == j then |e.ids| else 0
  }

  function Balance(db: DB, j: nat): int {
    Work(db, j) + Handled(db.log, j)
  }

  /** Started and bounded, or deleted since. */
  ghost predicate Going(db: DB, j: nat) {
    && j < db.nextJob
    && (j in db.jobs ==> !db.jobs[j].state.Created? && (db.jobs[j].cursor.Some? ==> db.jobs[j].hi.Some?))
  }

  /** The balance grows by at most `extra`, and is exactly kept when nothing is added and the job stays.
      Each report accepted brought at least one result. */
  ghost predicate Carries(db: DB, after: DB, j: nat, extra: nat) {
    && Going(after, j) && (j in after.jobs ==> j in db.jobs)
    && Balance(after, j) <= Balance(db, j) + extra
    && (extra == 0 && j in after.jobs ==> Balance(after, j) == Balance(db, j))
    && AcceptedOf(after.log, j) - AcceptedOf(db.log, j) <= Handled(after.log, j) - Handled(db.log, j)
  }

  lemma CarriesTransitive(a: DB, b: DB, c: DB, j: nat, m: nat, n: nat)
    requires Carries(a, b, j, m) && Carries(b, c, j, n)
    ensures Carries(a, c, j, m + n)
  {
  }

  lemma CarriesSelf(db: DB, j: nat)
    requires Going(db, j)
    ensures Carries(db, db, j, 0)
  {
  }

  // ---- Sums over chunks --------------------------------------------------------------------------

  lemma {:induction false} SumAtMost(a: map<nat, Chunk>, b: map<nat, Chunk>, j: nat, n: nat)
    requires forall c: nat :: c < n ==> SlotsAt(a, j, c) <= SlotsAt(b, j, c)
    ensures SlotSum(a, j, n) <= SlotSum(b, j, n)
  {
    if n > 0 { SumAtMost(a, b, j, n - 1); }
  }

  lemma {:induction false} SumBeyond(a: map<nat, Chunk>, j: nat, n: nat, m: nat)
    requires n <= m && forall c: nat :: n <= c < m ==> SlotsAt(a, j, c) == 0
    ensures SlotSum(a, j, m) == SlotSum(a, j, n)
  {
    if n < m { SumBeyond(a, j, n, m - 1); }
  }

  /** The sums differ by what they differ by at `c`. */
  lemma {:induction false} SumDiffers(a: map<nat, Chunk>, b: map<nat, Chunk>, j: nat, n: nat, c: nat)
    requires c < n && forall d: nat :: d < n && d != c ==> SlotsAt(a, j, d) == SlotsAt(b, j, d)
    ensures SlotSum(b, j, n) == SlotSum(a, j, n) + SlotsAt(b, j, c) - SlotsAt(a, j, c)
  {
    if c < n - 1 {
      SumDiffers(a, b, j, n - 1, c);
    } else {
      SumAtMost(a, b, j, n - 1);
      SumAtMost(b, a, j, n - 1);
    }
  }

  lemma {:induction false} WorkIsNatural(db: DB, j: nat, n: nat)
    requires Shaped(db)
    ensures SlotSum(db.chunks, j, n) >= 0
  {
    if n > 0 {
      WorkIsNatural(db, j, n - 1);
      if n - 1 in db.chunks { assert ShapedChunk(db.chunks[n - 1]); }
    }
  }

  // ---- Steps that leave the job's slots alone ----------------------------------------------------

  /** The job's slots are what they were, or fewer when it is deleted; new chunks are not its own. */
  ghost predicate SlotsKept(db: DB, after: DB, j: nat) {
    && db.nextChunk <= after.nextChunk
    && (forall c: nat :: c < db.nextChunk ==> SlotsAt(after.chunks, j, c) <= SlotsAt(db.chunks, j, c))
    && (j in after.jobs ==>
          forall c: nat :: c < db.nextChunk ==> SlotsAt(db.chunks, j, c) <= SlotsAt(after.chunks, j, c))
    && (forall c: nat :: db.nextChunk <= c < after.nextChunk ==> SlotsAt(after.chunks, j, c) == 0)
  }

  /** The job's cursor and end are as they were, or the job is deleted. */
  ghost predicate RowKept(db: DB, after: DB, j: nat) {
    && db.nextJob <= after.nextJob
    && (j in after.jobs ==>
          && j in db.jobs && after.jobs[j].cursor == db.jobs[j].cursor && after.jobs[j].hi == db.jobs[j].hi
          && (after.jobs[j].state.Created? ==> db.jobs[j].state.Created?))
  }

  lemma {:induction false} KeptCarries(db: DB, after: DB, j: nat)
    requires Going(db, j) && SlotsKept(db, after, j) && RowKept(db, after, j)
    requires AcceptedOf(after.log, j) == AcceptedOf(db.log, j) && Handled(after.log, j) == Handled(db.log, j)
    ensures Carries(db, after, j, 0)
  {
    var n := db.nextChunk;
    SumAtMost(after.chunks, db.chunks, j, n);
    if j in after.jobs { SumAtMost(db.chunks, after.chunks, j, n); }
    SumBeyond(after.chunks, j, n, after.nextChunk);
  }

  lemma QuietCarries(db: DB, after: DB, j: nat)
    requires Shaped(db) && Going(db, j) && Quiet(db, after)
    ensures Carries(db, after, j, 0)
  {
    forall c: nat | c in db.chunks ensures Slots(db.chunks[c]) >= 0 { assert ShapedChunk(db.chunks[c]); }
    if after.log != db.log {
      var e: Event :| e.Granted? && after.log == db.log + [e];
      AppendEvent(db.log, e);
    }
    KeptCarries(db, after, j);
  }

  // ---- Leasing -----------------------------------------------------------------------------------

  lemma CutOwn(db: DB, j: nat)
    requires Going(db, j) && Linked(db) && j in db.jobs && HasUncut(db.jobs[j]) && db.jobs[j].size >= 1
    ensures Carries(db, CutPiece(db, j), j, 0)
  {
    var after := CutPiece(db, j);
    var piece := NextPiece(j, db.jobs[j]);
    AppendEvent(db.log, Cut(db.nextChunk, j, piece.lo, piece.hi));
    SumAtMost(db.chunks, after.chunks, j, db.nextChunk);
    SumAtMost(after.chunks, db.chunks, j, db.nextChunk);
    assert SlotsAt(after.chunks, j, db.nextChunk) == piece.hi + 1 - piece.lo;
  }

  lemma CutOther(db: DB, i: nat, j: nat)
    requires Going(db, j) && i in db.jobs && HasUncut(db.jobs[i]) && i != j
    ensures Carries(db, CutPiece(db, i), j, 0)
  {
    var piece := NextPiece(i, db.jobs[i]);
    AppendEvent(db.log, Cut(db.nextChunk, i, piece.lo, piece.hi));
    KeptCarries(db, CutPiece(db, i), j);
  }

  lemma CutShaped(db: DB, j: nat)
    requires Shaped(db) && j in db.jobs && HasUncut(db.jobs[j]) && db.jobs[j].size >= 1
    ensures Shaped(CutPiece(db, j))
  {
    forall c | c in CutPiece(db, j).chunks ensures ShapedChunk(CutPiece(db, j).chunks[c]) {
      if c != db.nextChunk { assert ShapedChunk(db.chunks[c]); }
    }
  }

  lemma ReclaimKeepsShape(db: DB)
    requires Shaped(db) && Begun(db) && Linked(db)
    ensures Shaped(ReclaimExpired(db)) && Begun(ReclaimExpired(db)) && Linked(ReclaimExpired(db))
  {
    ReclaimCalm(db);
    QuietBegun(db, ReclaimExpired(db));
    forall c | c in db.chunks ensures ShapedChunk(ReclaimExpired(db).chunks[c]) { assert ShapedChunk(db.chunks[c]); }
  }

  lemma LeaseCarries(db: DB, w: nat, lease: int, j: nat)
    requires Linked(db) && Begun(db) && Shaped(db) && Going(db, j) && w in db.workers
    ensures Carries(db, Lease(db, w, lease).0, j, 0)
  {
    hide Linked, Begun, Shaped, Going, Carries, Clash, Calm, CutPiece, Grant;
    var d := ReclaimExpired(db);
    var after := Lease(db, w, lease).0;
    CarriesSelf(db, j);
    ReclaimKeepsShape(db);
    ReclaimQuiet(db);
    QuietCarries(db, d, j);
    CarriesGoing(db, d, j, 0);
    if after != db && after != d {
      if Takeable(d, w) != {} {
        GrantQuiet(d, Least(Takeable(d, w)), w, lease);
        QuietCarries(d, after, j);
      } else {
        var i := Least(Cuttable(d, w));
        var e := CutPiece(d, i);
        SizePositive(d, i);
        CutShaped(d, i);
        if i == j { CutOwn(d, j); } else { CutOther(d, i, j); }
        CarriesGoing(d, e, j, 0);
        NewChunkPending(d, i);
        GrantQuiet(e, d.nextChunk, w, lease);
        QuietCarries(e, after, j);
        CarriesTransitive(d, e, after, j, 0, 0);
      }
      CarriesTransitive(db, d, after, j, 0, 0);
    }
  }

  lemma CarriesGoing(db: DB, after: DB, j: nat, n: nat)
    requires Carries(db, after, j, n)
    ensures Going(after, j)
  {
  }

  lemma SizePositive(db: DB, j: nat)
    requires Begun(db) && j in db.jobs
    ensures db.jobs[j].size >= 1
  {
    assert BegunJob(db, j);
  }

  lemma NewChunkPending(db: DB, j: nat)
    requires j in db.jobs && HasUncut(db.jobs[j])
    ensures db.nextChunk in CutPiece(db, j).chunks && CutPiece(db, j).chunks[db.nextChunk].status.Pending?
  {
  }

  lemma ReclaimQuiet(db: DB)
    ensures Quiet(db, ReclaimExpired(db))
  {
    ReclaimCalm(db);
  }

  lemma GrantQuiet(db: DB, c: nat, w: nat, lease: int)
    requires c in db.chunks && db.chunks[c].status.Pending?
    ensures Quiet(db, Grant(db, c, w, lease))
  {
    GrantCalm(db, c, w, lease);
  }

  // ---- Completing, creating and starting ---------------------------------------------------------

  /** An honest completion closes a chunk that has nothing left; a failure keeps it open. */
  lemma CloseCarries(db: DB, w: nat, c: nat, status: ChunkStatus, j: nat)
    requires Going(db, j) && (status.Completed? ==> HonestComplete(db, w, c))
    ensures Carries(db, CompleteChunk(db, w, c, status).0, j, 0)
  {
    KeptCarries(db, CompleteChunk(db, w, c, status).0, j);
  }

  lemma CloseShaped(db: DB, w: nat, c: nat, status: ChunkStatus)
    requires Shaped(db) && (status.Completed? ==> HonestComplete(db, w, c))
    ensures Shaped(CompleteChunk(db, w, c, status).0)
  {
    var after := CompleteChunk(db, w, c, status).0;
    forall d | d in after.chunks ensures ShapedChunk(after.chunks[d]) { assert ShapedChunk(db.chunks[d]); }
  }

  lemma CompleteCarries(db: DB, w: nat, c: nat, status: ChunkStatus, j: nat)
    requires Shaped(db) && Going(db, j) && (status.Completed? ==> HonestComplete(db, w, c))
    ensures Carries(db, Apply(db, Complete(w, c, status)), j, 0)
  {
    hide Shaped, Going, Carries, MaybeCompleteJob, HonestComplete;
    var d := CompleteChunk(db, w, c, status).0;
    CarriesSelf(db, j);
    CloseCarries(db, w, c, status, j);
    CloseShaped(db, w, c, status);
    CarriesGoing(db, d, j, 0);
    if c in d.chunks {
      FinishQuiet(d, d.chunks[c].job);
      QuietCarries(d, MaybeCompleteJob(d, d.chunks[c].job), j);
      CarriesTransitive(db, d, MaybeCompleteJob(d, d.chunks[c].job), j, 0, 0);
    }
  }

  lemma AddJobCarries(db: DB, job: Job, j: nat)
    requires Going(db, j)
    ensures Carries(db, AddJob(db, job), j, 0)
  {
    KeptCarries(db, AddJob(db, job), j);
  }

  lemma StartedCarries(db: DB, after: DB, i: nat, rows: seq<Chunk>, j: nat)
    requires Begun(db) && Going(db, j) && StartedWith(db, after, i, rows) && i != j
    requires after.nextJob == db.nextJob && after.nextChunk == db.nextChunk + |rows|
    ensures Carries(db, after, j, 0)
  {
    assert BegunJob(db, i);
    forall c: nat ensures SlotsAt(after.chunks, j, c) == if c < db.nextChunk then SlotsAt(db.chunks, j, c) else 0 {
      if c in after.chunks { AddedRowsAre(db.chunks, after.chunks, db.nextChunk, rows, i, c); }
    }
    KeptCarries(db, after, j);
  }

  lemma FirstStartNext(db: DB, i: nat)
    requires i in db.jobs && FirstStart(db, i).Some?
    ensures FirstStart(db, i).value.nextJob == db.nextJob
    ensures FirstStart(db, i).value.nextChunk
            == db.nextChunk + if Lazy(db.jobs[i]) then 0 else |PreCut(i, db.jobs[i].targets, OnlineCount(db))|
  {
  }

  lemma FirstStartCarries(db: DB, i: nat, j: nat)
    requires Orderly(db) && Going(db, j) && i in db.jobs && db.jobs[i].state.Created? && i != j
    ensures FirstStart(db, i).Some? ==> Carries(db, FirstStart(db, i).value, j, 0)
  {
    hide Carries, Going, StartedWith, StartsRight, FirstStart, Covered, Exclusive, Unsettled, Tiled, Concluded, Within;
    if FirstStart(db, i).Some? {
      var after := FirstStart(db, i).value;
      assert BegunJob(db, i);
      FirstStartNext(db, i);
      if Lazy(db.jobs[i]) {
        FirstStartLazy(db, i);
        StartedCarries(db, after, i, [], j);
      } else {
        var rows := PreCut(i, db.jobs[i].targets, OnlineCount(db));
        FiniteStartIs(db, i, rows);
        FirstStartFinite(db, after, i, rows, OnlineCount(db));
        StartedCarries(db, after, i, rows, j);
      }
    }
  }

  lemma ControlCarries(db: DB, i: nat, command: Command, j: nat)
    requires Orderly(db) && Going(db, j) && i in db.jobs
    ensures Carries(db, Drive(db, i, command), j, 0)
  {
    hide Carries, Linked, Coherent, UniqueRanges, Begun, Covered, Exclusive, Unsettled, Tiled, Concluded, Within;
    CarriesSelf(db, j);
    if command.Start? && db.jobs[i].state.Created? {
      FirstStartCarries(db, i, j);
    } else {
      ControlCalm(db, i, command);
      QuietCarries(db, Drive(db, i, command), j);
    }
  }

  // ---- Draining ----------------------------------------------------------------------------------

  lemma AddRunningCarries(db: DB, job: Job, j: nat)
    requires Orderly(db) && Going(db, j)
    requires job.state.Created? && job.cursor.None? && job.size >= 1 && job.owner.None?
    ensures AddRunning(db, job).Some? ==> Carries(db, AddRunning(db, job).value, j, 0)
  {
    var d := AddJob(db, job);
    AddJobKeeps(db, job);
    AddJobCarries(db, job, j);
    hide Carries, Orderly, AddJob, Initialize;
    CarriesGoing(db, d, j, 0);
    FirstStartCarries(d, db.nextJob, j);
    if AddRunning(db, job).Some? {
      assert AddRunning(db, job) == FirstStart(d, db.nextJob);
      CarriesTransitive(db, d, AddRunning(db, job).value, j, 0, 0);
    }
  }

  lemma {:induction false} TransferJobsCarry(db: DB, ts: seq<Transfer>, sources: seq<string>, j: nat)
    requires Orderly(db) && Going(db, j)
    ensures TransferJobs(db, ts, sources).Some? ==> Carries(db, TransferJobs(db, ts, sources).value, j, 0)
  {
    hide Carries, Orderly, AddRunning, Going;
    CarriesSelf(db, j);
    if sources != [] {
      var n := |sources| - 1;
      TransferJobsCarry(db, ts, sources[..n], j);
      TransferJobsKeep(db, ts, sources[..n]);
      var before := TransferJobs(db, ts, sources[..n]);
      if before.Some? {
        var job := NewJob(sources[n], TargetsOf(EntriesOf(ts, sources[n])));
        CarriesGoing(db, before.value, j, 0);
        AddRunningCarries(before.value, job, j);
        if AddRunning(before.value, job).Some? {
          CarriesTransitive(db, before.value, AddRunning(before.value, job).value, j, 0, 0);
        }
      }
    }
  }

  lemma PurgeCarries(db: DB, w: nat, j: nat)
    requires Shaped(db) && Going(db, j)
    ensures Carries(db, Purge(db, w), j, 0)
  {
    hide Purge;
    PurgeCalm(db, w);
    QuietCarries(db, Purge(db, w), j);
  }

  lemma OrderlyShaped(db: DB)
    requires Orderly(db)
    ensures Safe(db) && Shaped(db) && Begun(db) && Linked(db)
  {
  }

  lemma StartDrainCarries(db: DB, w: nat, j: nat)
    requires Orderly(db) && Going(db, j) && w in db.workers
    ensures StartDrain(db, w).Some? ==> Carries(db, StartDrain(db, w).value, j, 0)
  {
    hide Carries, Orderly, Going, Calm, TransferJobs, Plan, SetDraining;
    var ts := Plan(db, w);
    TransferJobsCarry(db, ts, Sources(ts), j);
    TransferJobsKeep(db, ts, Sources(ts));
    if TransferJobs(db, ts, Sources(ts)).Some? {
      var d := TransferJobs(db, ts, Sources(ts)).value;
      OrderlyShaped(d);
      CarriesGoing(db, d, j, 0);
      SetDrainingQuiet(d, w);
      QuietCarries(d, SetDraining(d, w), j);
      CarriesTransitive(db, d, SetDraining(d, w), j, 0, 0);
    }
  }

  lemma SetDrainingQuiet(db: DB, w: nat)
    requires w in db.workers
    ensures Quiet(db, SetDraining(db, w))
  {
    SetDrainingCalm(db, w);
  }

  lemma RedistributeCarries(db: DB, w: nat, j: nat)
    requires Orderly(db) && Going(db, j)
    ensures Carries(db, Redistribute(db, w), j, 0)
  {
    hide Carries, Orderly, Going, Redistribute, StartDrain, Purge, Shaped;
    RedistributeCases(db, w);
    CarriesSelf(db, j);
    if w in db.workers && StartDrain(db, w).Some? {
      var d := StartDrain(db, w).value;
      StartDrainCarries(db, w, j);
      StartDrainKeeps(db, w);
      OrderlyShaped(d);
      CarriesGoing(db, d, j, 0);
      PurgeCarries(d, w, j);
      CarriesTransitive(db, d, Purge(d, w), j, 0, 0);
    }
  }

  lemma {:induction false} FinalizeCarries(db: DB, held: set<nat>, order: seq<nat>, j: nat)
    requires Orderly(db) && Going(db, j)
    ensures Carries(db, Finalize(db, held, order), j, 0)
  {
    hide Carries, Orderly, Going, Purge, Shaped;
    CarriesSelf(db, j);
    if order != [] {
      var n := |order| - 1;
      var d := Finalize(db, held, order[..n]);
      FinalizeCarries(db, held, order[..n], j);
      FinalizeKeeps(db, held, order[..n]);
      OrderlyShaped(d);
      CarriesGoing(db, d, j, 0);
      PurgeCarries(d, order[n], j);
      CarriesSelf(d, j);
      CarriesTransitive(db, d, FinalizeOne(d, held, order[n]), j, 0, 0);
    }
  }

  // ---- Retrying ----------------------------------------------------------------------------------

  lemma RequeueOther(db: DB, k: Key, j: nat)
    requires Linked(db) && Going(db, j) && k in db.tables.items && k.job != j
    ensures Carries(db, RequeueOne(db, k), j, 0)
  {
    hide RequeueOne, Linked;
    var c := RequeueShape(db, k);
    var after := RequeueOne(db, k);
    AppendEvent(db.log, Event.Requeued(c, k.job));
    forall d: nat ensures SlotsAt(after.chunks, j, d) == SlotsAt(db.chunks, j, d) {}
    ChunksBelow(db);
    KeptCarries(db, after, j);
  }

  /** Giving an identifier its own chunk adds at most one slot. */
  lemma RequeueOwn(db: DB, k: Key, j: nat)
    requires Linked(db) && Shaped(db) && Going(db, j) && k in db.tables.items && k.job == j
    ensures Carries(db, RequeueOne(db, k), j, 1)
  {
    hide RequeueOne, Linked;
    var c := RequeueMeans(db, k);
    var after := RequeueOne(db, k);
    RequeueNext(db, k);
    ChunksBelow(db);
    AppendEvent(db.log, Event.Requeued(c, k.job));
    assert SlotsAt(after.chunks, j, c) == 1;
    if c in db.chunks {
      assert ShapedChunk(db.chunks[c]);
      SumDiffers(db.chunks, after.chunks, j, db.nextChunk, c);
      SumBeyond(after.chunks, j, db.nextChunk, after.nextChunk);
    } else {
      assert c in after.chunks.Keys;
      SumAtMost(db.chunks, after.chunks, j, db.nextChunk);
      SumAtMost(after.chunks, db.chunks, j, db.nextChunk);
      SumBeyond(after.chunks, j, db.nextChunk + 1, after.nextChunk);
    }
  }

  lemma RequeueNext(db: DB, k: Key)
    requires k in db.tables.items
    ensures db.nextChunk <= RequeueOne(db, k).nextChunk <= db.nextChunk + 1 && RequeueOne(db, k).nextJob == db.nextJob
    ensures RequeueOne(db, k).nextChunk == db.nextChunk ==> RequeueOne(db, k).chunks.Keys == db.chunks.Keys
  {
  }

  lemma {:induction false} RequeueAllCarries(db: DB, ks: seq<Key>, i: nat, j: nat)
    requires Orderly(db) && Going(db, j)
    requires forall n :: 0 <= n < |ks| ==>
               ks[n] in db.tables.items && ks[n].job == i && Retryable(db.tables.items[ks[n]].status)
    requires forall m, n :: 0 <= m < n < |ks| ==> ks[m] != ks[n]
    ensures Carries(db, RequeueAll(db, ks), j, if i == j then |ks| else 0)
  {
    hide Carries, Orderly, Going, RequeueOne, Shaped, Linked;
    CarriesSelf(db, j);
    if ks != [] {
      var n := |ks| - 1;
      var d := RequeueAll(db, ks[..n]);
      RequeueAllCarries(db, ks[..n], i, j);
      RequeueAllKeeps(db, ks[..n]);
      OrderlyShaped(d);
      CarriesGoing(db, d, j, if i == j then n else 0);
      if i == j { RequeueOwn(d, ks[n], j); } else { RequeueOther(d, ks[n], j); }
      CarriesTransitive(db, d, RequeueOne(d, ks[n]), j, if i == j then n else 0, if i == j then 1 else 0);
    }
  }

  lemma ReopenQuiet(db: DB, i: nat)
    requires i in db.jobs && !db.jobs[i].state.Created?
    ensures Quiet(db, WithJob(db, i, db.jobs[i].(state := JobState.Running)))
  {
  }

  lemma ReopenCarries(db: DB, i: nat, j: nat)
    requires Shaped(db) && Going(db, j) && i in db.jobs && !db.jobs[i].state.Created?
    ensures Carries(db, WithJob(db, i, db.jobs[i].(state := JobState.Running)), j, 0)
  {
    hide Carries, Shaped, Going, Quiet;
    ReopenQuiet(db, i);
    QuietCarries(db, WithJob(db, i, db.jobs[i].(state := JobState.Running)), j);
  }

  /** A retry adds at most as many slots as it re-queues identifiers, and only to its own job. */
  lemma RetryCarries(db: DB, i: nat, j: nat)
    requires Orderly(db) && Going(db, j) && i in db.jobs
    ensures Carries(db, Retry(db, i), j, if i == j then |RetryList(db, i)| else 0)
    ensures |RetryList(db, i)| <= RETRY_LIMIT
  {
    hide Carries, Orderly, Going, RequeueAll, RetryList, Retry, Shaped, Begun, Linked, Safe, Quiet, WithJob;
    var ks := RetryList(db, i);
    var n := if i == j then |ks| else 0;
    var d := RequeueAll(db, ks);
    RetryCases(db, i);
    RequeueAllCarries(db, ks, i, j);
    RequeueAllKeeps(db, ks);
    CarriesSelf(db, j);
    CarriesMore(db, db, j, 0, n);
    CarriesGoing(db, d, j, n);
    if db.jobs[i].state.Completed? || db.jobs[i].state.Failed? {
      OrderlyShaped(d);
      ReopenCarries(d, i, j);
      CarriesTransitive(db, d, WithJob(d, i, d.jobs[i].(state := JobState.Running)), j, n, 0);
    }
  }

  // ---- Every request -----------------------------------------------------------------------------

  lemma OtherCarries(db: DB, r: Request, j: nat)
    requires Shaped(db) && Going(db, j) && HonestRequest(db, r)
    requires r.Tick? || r.Register? || r.Heartbeat? || r.MarkStale? || r.Dismiss? || r.DismissAll?
          || r.DeleteItems? || r.DeleteJob? || r.SweepJob? || r.Complete? || r.Fail?
    ensures Carries(db, Apply(db, r), j, 0)
  {
    hide Shaped, Carries, Quiet, MaybeCompleteJob, CompleteChunk, HonestComplete, BeatHeart;
    CarriesSelf(db, j);
    if r.Tick? || r.Register? || r.Heartbeat? || r.MarkStale? {
      WorkerRequestCalm(db, r);
      QuietCarries(db, Apply(db, r), j);
    } else if r.SweepJob? {
      FinishQuiet(db, r.swept);
      QuietCarries(db, Apply(db, r), j);
    } else if r.Fail? {
      CloseCarries(db, r.worker, r.chunk, ChunkStatus.Failed, j);
    } else if r.Complete? {
      CompleteCarries(db, r.worker, r.chunk, r.status, j);
    } else {
      ItemRequestCalm(db, r);
      QuietCarries(db, Apply(db, r), j);
    }
  }

  /** What an honest report does to the slots: its chunk loses as many as it has results. */
  lemma {:induction false} ProgressedSlots(db: DB, after: DB, w: nat, c: nat, next: int, ids: seq<int>, j: nat)
    requires Linked(db) && Shaped(db) && Progressed(db, after, w, c, next, ids)
    ensures var own := if db.chunks[c].job == j then |ids| else 0;
            && |ids| >= 1 && SlotSum(after.chunks, j, db.nextChunk) == SlotSum(db.chunks, j, db.nextChunk) - own
            && Handled(after.log, j) == Handled(db.log, j) + own
            && AcceptedOf(after.log, j) == AcceptedOf(db.log, j) + if db.chunks[c].job == j then 1 else 0
  {
    AppendEvent(db.log, Accepted(c, db.chunks[c].job, w, ids, next));
    assert ShapedChunk(db.chunks[c]);
    ChunksBelow(db);
    SumDiffers(db.chunks, after.chunks, j, db.nextChunk, c);
  }

  lemma {:induction false} ProgressedCarries(db: DB, after: DB, w: nat, c: nat, next: int, ids: seq<int>, j: nat)
    requires Linked(db) && Shaped(db) && Going(db, j) && Progressed(db, after, w, c, next, ids)
    requires after.nextJob == db.nextJob
    ensures var own := if db.chunks[c].job == j then |ids| else 0;
            && Carries(db, after, j, 0) && |ids| >= 1
            && Work(after, j) == Work(db, j) - own && Handled(after.log, j) == Handled(db.log, j) + own
  {
    hide Linked, Shaped;
    ProgressedSlots(db, after, w, c, next, ids, j);
  }

  /** An accepted report moves exactly its identifiers, at least one, from what is left of its job to what
      was recorded of it, whatever else overlaps; it leaves every other job's balance alone. */
  lemma {:induction false} ReportCarries(db: DB, w: nat, c: nat, next: int, rs: seq<Result>, j: nat)
    requires Orderly(db) && Going(db, j) && w in db.workers && HonestReport(db, w, c, next, rs) && Holds(db, w, c)
    ensures var after := Progress(db, w, c, next, rs).0;
            && Carries(db, after, j, 0) && |rs| >= 1
            && Work(after, j) == Work(db, j) - (if db.chunks[c].job == j then |rs| else 0)
            && Handled(after.log, j) == Handled(db.log, j) + (if db.chunks[c].job == j then |rs| else 0)
  {
    hide Progress, Progressed, Orderly, HonestReport, Carries, Work, Going, Linked, Shaped, Begun;
    var after := Progress(db, w, c, next, rs).0;
    OrderlyShaped(db);
    ProgressMeans(db, w, c, next, rs);
    ProgressNext(db, w, c, next, rs);
    ProgressedCarries(db, after, w, c, next, Ids(rs), j);
  }

  lemma ProgressNext(db: DB, w: nat, c: nat, next: int, rs: seq<Result>)
    requires w in db.workers
    ensures Progress(db, w, c, next, rs).0.nextJob == db.nextJob
  {
  }

  /** Every request from honest agents keeps the balance of the job, but for its own retry. */
  lemma ApplyCarries(db: DB, r: Request, j: nat)
    requires Orderly(db) && Going(db, j) && HonestRequest(db, r)
    ensures Carries(db, Apply(db, r), j, if r == RetryJob(j) then RETRY_LIMIT else 0)
  {
    hide Lease, AddJob, Drive, Retry, Finalize, Redistribute, Purge, Progress, Carries, Linked, Coherent, UniqueRanges,
         Covered, Exclusive, Unsettled, Tiled, Concluded, Within, HonestReport, HonestComplete, RetryList;
    CarriesSelf(db, j);
    if r.Report? {
      if r.worker in db.workers {
        if Holds(db, r.worker, r.chunk) {
          ReportCarries(db, r.worker, r.chunk, r.next, r.results, j);
        } else {
          NotHeld(db, r.worker, r.chunk, r.next, r.results);
        }
      }
    } else if r.TakeLease? {
      if r.worker in db.workers { LeaseCarries(db, r.worker, r.lease, j); }
    } else if r.CreateJob? {
      if Acceptable(db, r.job) { AddJobCarries(db, r.job, j); }
    } else if r.Control? {
      if r.driven in db.jobs { ControlCarries(db, r.driven, r.command, j); }
    } else if r.RetryJob? {
      if r.retried in db.jobs {
        RetryCarries(db, r.retried, j);
        if r.retried == j { CarriesMore(db, Retry(db, j), j, |RetryList(db, j)|, RETRY_LIMIT); }
      } else {
        CarriesMore(db, db, j, 0, RETRY_LIMIT);
      }
    } else if r.SweepDrained? {
      FinalizeCarries(db, r.held, r.order, j);
    } else if r.RemoveWorker? {
      RedistributeCarries(db, r.worker, j);
      PurgeCarries(db, r.worker, j);
    } else {
      OtherCarries(db, r, j);
    }
  }

  lemma CarriesMore(db: DB, after: DB, j: nat, m: nat, n: nat)
    requires Carries(db, after, j, m) && m <= n
    ensures n > 0 ==> Carries(db, after, j, n)
  {
  }

  // ---- Every play --------------------------------------------------------------------------------

  predicate Retries(m: Move, j: nat) {
    m == Serve(RetryJob(j))
  }

  /** How often the play retries the job. */
  function RetryCount(ms: seq<Move>, j: nat): nat {
    if ms == [] then 0
    else RetryCount(ms[..|ms| - 1], j) + if Retries(ms[|ms| - 1], j) then 1 else 0
  }

  lemma MoveCarries(s: Sys, m: Move, j: nat)
    requires Honest(s) && Going(s.db, j)
    ensures Carries(s.db, Next(s, m).db, j, if Retries(m, j) then RETRY_LIMIT else 0)
  {
    hide Orderly, Going, Carries, HonestRequest, Apply, AgentAfter, Attached;
    CarriesSelf(s.db, j);
    if Enabled(s, m) && Arrives(s, m).Some? {
      MovesAreHonest(s, m);
      ApplyCarries(s.db, Arrives(s, m).value, j);
    }
  }

  /** In every play, whatever the job's input overlaps: what is left of a started, bounded job plus what was
      recorded of it is constant while the job exists and is not retried; each retry adds at most
      RETRY_LIMIT; and every accepted report brings at least one result. */
  lemma {:induction false} WorkIsConserved(s: Sys, ms: seq<Move>, j: nat)
    requires Honest(s) && Going(s.db, j)
    ensures Honest(Play(s, ms)) && Carries(s.db, Play(s, ms).db, j, RETRY_LIMIT * RetryCount(ms, j))
  {
    hide Honest, Going, Carries, Next;
    CarriesSelf(s.db, j);
    if ms != [] {
      var n := |ms| - 1;
      var before := Play(s, ms[..n]);
      WorkIsConserved(s, ms[..n], j);
      NextIsHonest(before, ms[n]);
      CarriesGoing(s.db, before.db, j, RETRY_LIMIT * RetryCount(ms[..n], j));
      MoveCarries(before, ms[n], j);
      var extra := if Retries(ms[n], j) then RETRY_LIMIT else 0;
      CarriesTransitive(s.db, before.db, Play(s, ms).db, j, RETRY_LIMIT * RetryCount(ms[..n], j), extra);
      assert RETRY_LIMIT * RetryCount(ms, j) == RETRY_LIMIT * RetryCount(ms[..n], j) + extra;
    }
  }

  /** So in every play at most as many reports are accepted for the job as there was work left for it, plus
      RETRY_LIMIT for each retry. */
  lemma {:induction false} AcceptedReportsBounded(s: Sys, ms: seq<Move>, j: nat)
    requires Honest(s) && Going(s.db, j)
    ensures AcceptedOf(Play(s, ms).db.log, j) <= AcceptedOf(s.db.log, j) + Work(s.db, j) + RETRY_LIMIT * RetryCount(ms, j)
  {
    hide Going, Covered, Exclusive, Unsettled, Tiled, Concluded, Within, Shaped;
    WorkIsConserved(s, ms, j);
    var end := Play(s, ms).db;
    WorkIsNatural(end, j, end.nextChunk);
  }

  // ---- The work a first start creates ------------------------------------------------------------

  function SpanOf(t: Target): int {
    Bounds(t).hi - Bounds(t).lo + 1
  }

  function SpanTotal(targets: seq<Target>): int {
    if targets == [] then 0 else SpanTotal(targets[..|targets| - 1]) + SpanOf(targets[|targets| - 1])
  }

  /** How many identifiers a job has to process, counted once per target that names them. */
  function InputSize(job: Job): int {
    if !Lazy(job) then SpanTotal(job.targets)
    else if LastId(job).Some? then Max(0, LastId(job).value + 1 - FirstId(job))
    else 0
  }

  function RowSlots(rows: seq<Chunk>): int {
    if rows == [] then 0 else RowSlots(rows[..|rows| - 1]) + Slots(rows[|rows| - 1])
  }

  lemma {:induction false} RowSlotsJoin(a: seq<Chunk>, b: seq<Chunk>)
    ensures RowSlots(a + b) == RowSlots(a) + RowSlots(b)
  {
    if b == [] {
      assert a + b == a;
    } else {
      RowSlotsJoin(a, b[..|b| - 1]);
      assert (a + b)[..|a + b| - 1] == a + b[..|b| - 1];
    }
  }

  lemma {:induction false} TileSlots(j: nat, a: int, b: int, size: int)
    requires size >= 1 && a <= b + 1
    ensures RowSlots(AsChunks(j, Tiles(a, b, size))) == b + 1 - a
    decreases b + 1 - a
  {
    var ts := Tiles(a, b, size);
    if a <= b {
      var end := Min(a + size - 1, b);
      var first := [NewChunk(j, Interval(a, end), None)];
      TileSlots(j, end + 1, b, size);
      assert AsChunks(j, ts) == first + AsChunks(j, Tiles(end + 1, b, size));
      assert first[..0] == [];
      RowSlotsJoin(first, AsChunks(j, Tiles(end + 1, b, size)));
    }
  }

  lemma TargetSlots(j: nat, t: Target, workers: int)
    ensures RowSlots(TargetChunks(j, t, workers)) == SpanOf(t)
  {
    var rows := TargetChunks(j, t, workers);
    if t.Span? {
      TileSlots(j, Bounds(t).lo, Bounds(t).hi, AutoChunkSize(SpanOf(t), workers));
    } else {
      assert rows[..0] == [];
    }
  }

  lemma {:induction false} KindSlots(j: nat, targets: seq<Target>, workers: int)
    ensures RowSlots(ChunksOf(j, targets, false, workers)) + RowSlots(ChunksOf(j, targets, true, workers)) == SpanTotal(targets)
  {
    if targets != [] {
      var n := |targets| - 1;
      var links := targets[n].Link?;
      KindSlots(j, targets[..n], workers);
      TargetSlots(j, targets[n], workers);
      RowSlotsJoin(ChunksOf(j, targets[..n], links, workers), TargetChunks(j, targets[n], workers));
    }
  }

  /** The rows of a first start hold as many slots as the targets have identifiers. */
  lemma {:induction false} PreCutSlots(j: nat, targets: seq<Target>, workers: int)
    ensures RowSlots(PreCut(j, targets, workers)) == SpanTotal(targets)
  {
    KindSlots(j, targets, workers);
    RowSlotsJoin(ChunksOf(j, targets, false, workers), ChunksOf(j, targets, true, workers));
  }

  lemma {:induction false} AddedSum(chunks: map<nat, Chunk>, after: map<nat, Chunk>, first: nat, rows: seq<Chunk>,
                                    j: nat, m: nat)
    requires AddedRows(chunks, after, first, rows) && AllFresh(rows, j) && m <= |rows|
    requires forall c :: c in chunks ==> chunks[c].job != j
    ensures SlotSum(after, j, first + m) == RowSlots(rows[..m])
  {
    if m == 0 {
      forall c: nat | c < first ensures SlotsAt(after, j, c) == 0 {}
      SumBeyond(after, j, 0, first);
    } else {
      AddedSum(chunks, after, first, rows, j, m - 1);
      assert Fresh(rows[m - 1], j);
      assert rows[..m][..m - 1] == rows[..m - 1];
      assert first + m - 1 in after;
    }
  }

  lemma {:induction false} NoneOfTheJob(db: DB, j: nat, n: nat)
    requires forall c :: c in db.chunks ==> db.chunks[c].job != j
    ensures SlotSum(db.chunks, j, n) == 0
  {
    if n > 0 { NoneOfTheJob(db, j, n - 1); }
  }

  lemma {:induction false} StartedSlots(db: DB, after: DB, j: nat, rows: seq<Chunk>)
    requires Begun(db) && StartedWith(db, after, j, rows)
    ensures SlotSum(after.chunks, j, db.nextChunk + |rows|) == RowSlots(rows)
  {
    assert BegunJob(db, j);
    AddedSum(db.chunks, after.chunks, db.nextChunk, rows, j, |rows|);
    assert rows[..|rows|] == rows;
  }

  lemma StartedUncut(db: DB, after: DB, j: nat, rows: seq<Chunk>)
    requires StartedWith(db, after, j, rows) && StartsRight(db, after, j, rows) && !OpenEndedJob(db.jobs[j])
    ensures j in db.jobs && j in after.jobs
    ensures Lazy(db.jobs[j]) ==> rows == [] && UncutCount(after, j) == InputSize(db.jobs[j])
    ensures !Lazy(db.jobs[j]) ==> UncutCount(after, j) == 0
    ensures after.jobs[j].cursor.Some? ==> after.jobs[j].hi.Some?
    ensures !after.jobs[j].state.Created?
  {
    hide AddedRows, AllFresh;
  }

  lemma StartedWork(db: DB, after: DB, j: nat, rows: seq<Chunk>, workers: int)
    requires Begun(db) && StartedWith(db, after, j, rows) && StartsRight(db, after, j, rows)
    requires after.nextJob == db.nextJob && after.nextChunk == db.nextChunk + |rows| && j < db.nextJob
    requires !Lazy(db.jobs[j]) ==> rows == PreCut(j, db.jobs[j].targets, workers)
    requires !OpenEndedJob(db.jobs[j])
    ensures Going(after, j) && Work(after, j) == InputSize(db.jobs[j])
  {
    hide Begun, StartsRight, StartedWith, UncutCount, Lazy;
    StartedSlots(db, after, j, rows);
    StartedUncut(db, after, j, rows);
    PreCutSlots(j, db.jobs[j].targets, workers);
  }

  /** A bounded job that starts has exactly its input as work. */
  lemma FirstStartWork(db: DB, j: nat)
    requires Orderly(db) && j in db.jobs && db.jobs[j].state.Created? && !OpenEndedJob(db.jobs[j])
    requires FirstStart(db, j).Some?
    ensures Going(FirstStart(db, j).value, j) && Work(FirstStart(db, j).value, j) == InputSize(db.jobs[j])
    ensures FirstStart(db, j).value.log == db.log
  {
    hide Going, Work, StartsRight, StartedWith, FirstStart, Covered, Exclusive, Unsettled, Tiled, Concluded, Within, InputSize;
    var after := FirstStart(db, j).value;
    assert BegunJob(db, j);
    FirstStartNext(db, j);
    FirstStartLog(db, j);
    if Lazy(db.jobs[j]) {
      FirstStartLazy(db, j);
      StartedWork(db, after, j, [], 0);
    } else {
      var rows := PreCut(j, db.jobs[j].targets, OnlineCount(db));
      FiniteStartIs(db, j, rows);
      FirstStartFinite(db, after, j, rows, OnlineCount(db));
      StartedWork(db, after, j, rows, OnlineCount(db));
    }
  }

  lemma FirstStartLog(db: DB, j: nat)
    requires j in db.jobs && FirstStart(db, j).Some?
    ensures FirstStart(db, j).value.log == db.log
  {
  }

  lemma StartIsFirst(db: DB, j: nat)
    requires j in db.jobs && db.jobs[j].state.Created?
    ensures FirstStart(db, j).Some? ==> Apply(db, Control(j, Start)) == FirstStart(db, j).value
    ensures FirstStart(db, j).None? ==> Apply(db, Control(j, Start)) == db
  {
    hide Initialize;
  }

  /** From its first start on, whatever it overlaps and through every pause, crash and hand-over, a bounded
      job has at most as many reports accepted as its input counts identifiers, plus RETRY_LIMIT for each
      retry; and while it exists and is not retried, its results and its remaining work add up to its input. */
  lemma {:induction false} StartedJobReports(s: Sys, ms: seq<Move>, j: nat)
    requires Honest(s) && j in s.db.jobs && s.db.jobs[j].state.Created? && !OpenEndedJob(s.db.jobs[j])
    ensures var start, size := Next(s, Serve(Control(j, Start))), InputSize(s.db.jobs[j]);
            var end := Play(start, ms).db;
            start.db != s.db ==>
              && AcceptedOf(end.log, j) <= AcceptedOf(s.db.log, j) + size + RETRY_LIMIT * RetryCount(ms, j)
              && (RetryCount(ms, j) == 0 && j in end.jobs ==>
                    Handled(end.log, j) - Handled(s.db.log, j) + Work(end, j) == size)
  {
    hide Orderly, Apply, FirstStart, Work, InputSize, Going, Attached;
    var start := Next(s, Serve(Control(j, Start)));
    StartIsFirst(s.db, j);
    if start.db != s.db {
      NextIsHonest(s, Serve(Control(j, Start)));
      FirstStartWork(s.db, j);
      WorkIsConserved(start, ms, j);
      AcceptedReportsBounded(start, ms, j);
    }
  }
}
