/** Chunk rows are permanent: ranges and links never change, the unique constraint is never in the way
    of honest work, and a retried link keeps its address. */
module Permanence {
  import opened Rows
  import opened Catalogue
  import opened Database
  import opened Chunking
  import opened SchedulerSpec
  import opened DrainSpec
  import opened DrainPlan
  import opened Requests
  import opened LeaseSafety
  import opened Ledger
  import opened Steps
  import opened Agents
  import opened Protocol
  import opened Pausing
  import opened Returning

  // ---- Honest work never meets the unique constraint ---------------------------------------------

  /** A piece cut on demand begins beyond every chunk the job has. */
  lemma PieceIsNew(db: DB, j: nat)
    requires Begun(db) && Shaped(db) && j in db.jobs && HasUncut(db.jobs[j]) && !db.jobs[j].state.Created?
    ensures !Clash(db.chunks, [NextPiece(j, db.jobs[j])])
  {
    assert BegunJob(db, j);
    forall c | c in db.chunks ensures !SameRange(db.chunks[c], NextPiece(j, db.jobs[j])) {
      assert ShapedChunk(db.chunks[c]);
    }
  }

  lemma LeaseNeverConflicts(db: DB, w: nat, lease: int)
    requires Orderly(db) && w in db.workers
    ensures !Lease(db, w, lease).1.Conflict?
  {
    hide Safe, Covered, Exclusive, Unsettled, Tiled, Concluded, Within, Begun, Clash, NextPiece, Quiet;
    var d := ReclaimExpired(db);
    ReclaimBegun(db);
    if Cuttable(d, w) != {} { PieceIsNew(d, Least(Cuttable(d, w))); }
  }

  lemma ReclaimBegun(db: DB)
    requires Begun(db) && Shaped(db)
    ensures Begun(ReclaimExpired(db)) && Shaped(ReclaimExpired(db))
  {
    ReclaimCalm(db);
    QuietBegun(db, ReclaimExpired(db));
    forall c | c in ReclaimExpired(db).chunks ensures ShapedChunk(ReclaimExpired(db).chunks[c]) {
      assert ShapedChunk(db.chunks[c]);
    }
  }

  /** In every play, while an open-ended job runs, a healthy worker that may take it is given a chunk. */
  lemma {:induction false} OpenEndedAlwaysHasWork(ms: seq<Move>, w: nat, lease: int, j: nat)
    ensures var db := Play(START, ms).db;
            && JobRunning(db, j) && OpenEndedJob(db.jobs[j]) && Eligible(db.jobs[j], w)
            && w in db.workers && !db.workers[w].state.Draining? && HasSpace(db.workers[w])
            ==> Lease(db, w, lease).1.Given?
  {
    hide Safe, Covered, Exclusive, Unsettled, Tiled, Concluded, Within, Clash, HasSpace;
    EveryPlayIsHonest(ms);
    var db := Play(START, ms).db;
    if JobRunning(db, j) && OpenEndedJob(db.jobs[j]) && Eligible(db.jobs[j], w) && w in db.workers {
      assert BegunJob(db, j);
      LeaseNeverConflicts(db, w, lease);
      assert j in Cuttable(ReclaimExpired(db), w);
    }
  }

  /** In every play an abandoned chunk comes back: if none of the requests that arrive reports on it or names it
      as the one being worked on, then once its lease is over the next worker that asks for work finds it free,
      or handed out anew. */
  lemma {:induction false} AbandonedInEveryPlay(s: Sys, ms: seq<Move>, c: nat, w: nat, lease: int)
    requires Honest(s) && IsLeased(s.db, c)
    requires forall i :: 0 <= i < |Arrivals(s, ms)| ==> Silent(Arrivals(s, ms)[i], c)
    ensures s.db.chunks[c].expires.Some?
    ensures var late := Play(s, ms).db;
            w in late.workers && !late.workers[w].state.Draining? && late.now > s.db.chunks[c].expires.value ==>
              var after := Lease(late, w, lease).0;
              !IsLeased(after, c) || GrantsOf(after.log, c) > GrantsOf(s.db.log, c)
  {
    hide Orderly, Attached, Play, Run, Lease, Silent, Arrivals;
    LeasedExpires(s.db, c);
    PlayIsRun(s, ms);
    PlayStaysHonest(s, ms);
    var late := Play(s, ms).db;
    if w in late.workers && !late.workers[w].state.Draining? && late.now > s.db.chunks[c].expires.value {
      LeaseNeverConflicts(late, w, lease);
      AbandonedChunksComeBack(s.db, Arrivals(s, ms), c, w, lease);
    }
  }

  lemma LeasedExpires(db: DB, c: nat)
    requires Orderly(db) && IsLeased(db, c)
    ensures Safe(db) && db.chunks[c].expires.Some?
  {
    assert CoherentChunk(db, c);
  }

  /** A job whose input names no identifier twice always starts. */
  lemma SeparateJobsStart(db: DB, j: nat)
    requires Orderly(db) && j in db.jobs && db.jobs[j].state.Created? && Separate(db.jobs[j])
    ensures Drive(db, j, Start).jobs[j].state.Running?
  {
    assert BegunJob(db, j);
    var targets := db.jobs[j].targets;
    var workers := OnlineCount(db);
    PreCutCovers(j, targets, workers);
    PreCutDisjoint(j, targets, workers);
    if !Lazy(db.jobs[j]) {
      RowsDisjointNoClash(db, PreCut(j, targets, workers), j);
    }
  }

  /** In every play no two chunks share job and range, no lease fails on the unique constraint, and
      every job with separate input can be started. */
  lemma {:induction false} ConstraintNeverBites(ms: seq<Move>, w: nat, lease: int, j: nat)
    ensures var db := Play(START, ms).db;
            && UniqueRanges(db.chunks)
            && (w in db.workers ==> !Lease(db, w, lease).1.Conflict?)
            && (j in db.jobs && db.jobs[j].state.Created? && Separate(db.jobs[j]) ==>
                  Drive(db, j, Start).jobs[j].state.Running?)
  {
    EveryPlayIsHonest(ms);
    var db := Play(START, ms).db;
    if w in db.workers { LeaseNeverConflicts(db, w, lease); }
    if j in db.jobs && db.jobs[j].state.Created? && Separate(db.jobs[j]) { SeparateJobsStart(db, j); }
  }

  // ---- Rows stay, with their ranges and links ----------------------------------------------------

  /** Started with its work cut in advance. */
  predicate CutInAdvance(job: Job) {
    !job.state.Created? && !Lazy(job)
  }

  /** A chunk row keeps its range and link and goes only with its job; no job is newly cut in advance. */
  ghost predicate Lasting(db: DB, after: DB) {
    && (forall c :: c in db.chunks && db.chunks[c].job in after.jobs ==>
          c in after.chunks && SameRange(db.chunks[c], after.chunks[c]) && after.chunks[c].url == db.chunks[c].url)
    && (forall j :: j in after.jobs && CutInAdvance(after.jobs[j]) ==>
          j in db.jobs && CutInAdvance(db.jobs[j]) && after.jobs[j].targets == db.jobs[j].targets)
  }

  /** The single-identifier row of a link. */
  ghost predicate LinkRow(db: DB, j: nat, t: Target, c: nat) {
    t.Link? && c in db.chunks && db.chunks[c].job == j
    && db.chunks[c].lo == db.chunks[c].hi == t.id && db.chunks[c].url == Some(t.url)
  }

  ghost predicate HasLinkRow(db: DB, j: nat, t: Target) {
    exists c :: LinkRow(db, j, t, c)
  }

  /** Every job cut in advance has chunks, and each of its links has its row. */
  ghost predicate LinksHaveRows(db: DB) {
    && (forall j :: j in db.jobs && CutInAdvance(db.jobs[j]) ==> HasChunk(db, j))
    && (forall j, i :: j in db.jobs && CutInAdvance(db.jobs[j]) && 0 <= i < |db.jobs[j].targets|
                       && db.jobs[j].targets[i].Link?
          ==> HasLinkRow(db, j, db.jobs[j].targets[i]))
  }

  lemma LastingKeepsLinks(db: DB, after: DB)
    requires LinksHaveRows(db) && Lasting(db, after)
    ensures LinksHaveRows(after)
  {
    forall j, i | j in after.jobs && CutInAdvance(after.jobs[j]) && 0 <= i < |after.jobs[j].targets|
                  && after.jobs[j].targets[i].Link?
      ensures HasLinkRow(after, j, after.jobs[j].targets[i])
    {
      var t := db.jobs[j].targets[i];
      assert HasLinkRow(db, j, t);
      var c :| LinkRow(db, j, t, c);
      assert LinkRow(after, j, t, c);
    }
    forall j | j in after.jobs && CutInAdvance(after.jobs[j]) ensures HasChunk(after, j) {
      assert HasChunk(db, j);
      var c :| c in db.chunks && db.chunks[c].job == j;
      assert c in after.chunks && after.chunks[c].job == j;
    }
  }

  // ---- Starting a job writes the rows ------------------------------------------------------------

  ghost predicate LinkAmong(rows: seq<Chunk>, t: Target) {
    t.Link? && exists r :: 0 <= r < |rows| && rows[r].lo == rows[r].hi == t.id && rows[r].url == Some(t.url)
  }

  lemma LinkAmongConcat(a: seq<Chunk>, b: seq<Chunk>, t: Target)
    requires LinkAmong(a, t) || LinkAmong(b, t)
    ensures LinkAmong(a + b, t)
  {
    var c := a + b;
    if LinkAmong(a, t) {
      var r :| 0 <= r < |a| && a[r].lo == a[r].hi == t.id && a[r].url == Some(t.url);
      assert c[r] == a[r];
    } else {
      var r :| 0 <= r < |b| && b[r].lo == b[r].hi == t.id && b[r].url == Some(t.url);
      assert c[|a| + r] == b[r];
    }
  }

  lemma {:induction false} LinksAreCut(j: nat, targets: seq<Target>, workers: int, i: nat)
    requires i < |targets| && targets[i].Link?
    ensures LinkAmong(ChunksOf(j, targets, true, workers), targets[i])
  {
    var n := |targets| - 1;
    var before, rows := ChunksOf(j, targets[..n], true, workers), TargetChunks(j, targets[n], workers);
    if i == n {
      assert rows[0].url == Some(targets[n].url);
      LinkAmongConcat(before, rows, targets[i]);
    } else {
      LinksAreCut(j, targets[..n], workers, i);
      if targets[n].Link? { LinkAmongConcat(before, rows, targets[i]); }
    }
  }

  /** Rows were inserted for job `j` and its row rewritten; nothing else changed. */
  ghost predicate Extended(db: DB, after: DB, j: nat) {
    && (forall c :: c in db.chunks ==> c in after.chunks && after.chunks[c] == db.chunks[c])
    && (forall i :: i in after.jobs && i != j ==> i in db.jobs && after.jobs[i] == db.jobs[i])
  }

  ghost predicate JobLinks(db: DB, j: nat)
    requires j in db.jobs
  {
    forall i :: 0 <= i < |db.jobs[j].targets| && db.jobs[j].targets[i].Link? ==> HasLinkRow(db, j, db.jobs[j].targets[i])
  }

  lemma ExtendedKeepsLinks(db: DB, after: DB, j: nat)
    requires LinksHaveRows(db) && Extended(db, after, j)
    requires j in after.jobs && CutInAdvance(after.jobs[j]) ==> JobLinks(after, j) && HasChunk(after, j)
    ensures LinksHaveRows(after)
  {
    forall k, i | k in after.jobs && k != j && CutInAdvance(after.jobs[k]) && 0 <= i < |after.jobs[k].targets|
                  && after.jobs[k].targets[i].Link?
      ensures HasLinkRow(after, k, after.jobs[k].targets[i])
    {
      var t := db.jobs[k].targets[i];
      assert HasLinkRow(db, k, t);
      var c :| LinkRow(db, k, t, c);
      assert LinkRow(after, k, t, c);
    }
    forall k | k in after.jobs && k != j && CutInAdvance(after.jobs[k]) ensures HasChunk(after, k) {
      assert HasChunk(db, k);
      var c :| c in db.chunks && db.chunks[c].job == k;
      assert c in after.chunks && after.chunks[c].job == k;
    }
  }

  ghost predicate StoredAt(chunks: map<nat, Chunk>, first: nat, rows: seq<Chunk>) {
    forall r :: 0 <= r < |rows| ==> first + r in chunks && chunks[first + r] == rows[r]
  }

  lemma AddedLinks(after: DB, j: nat, first: nat, rows: seq<Chunk>, workers: int, i: nat)
    requires j in after.jobs && i < |after.jobs[j].targets| && after.jobs[j].targets[i].Link?
    requires rows == PreCut(j, after.jobs[j].targets, workers)
    requires StoredAt(after.chunks, first, rows)
    ensures HasLinkRow(after, j, after.jobs[j].targets[i])
  {
    var targets := after.jobs[j].targets;
    var t := targets[i];
    LinksAreCut(j, targets, workers, i);
    LinkAmongConcat(ChunksOf(j, targets, false, workers), ChunksOf(j, targets, true, workers), t);
    var r :| 0 <= r < |rows| && rows[r].lo == rows[r].hi == t.id && rows[r].url == Some(t.url);
    PreCutCovers(j, targets, workers);
    assert Fresh(rows[r], j);
    assert LinkRow(after, j, t, first + r);
  }

  lemma AddedChunk(after: DB, j: nat, first: nat, rows: seq<Chunk>, workers: int)
    requires j in after.jobs && after.jobs[j].targets != [] && StoredAt(after.chunks, first, rows)
    requires rows == PreCut(j, after.jobs[j].targets, workers)
    ensures HasChunk(after, j)
  {
    hide PreCut;
    var t := after.jobs[j].targets[0];
    PreCutCovers(j, after.jobs[j].targets, workers);
    assert Bounds(t).Has(Bounds(t).lo);
    assert RowHas(rows, Bounds(t).lo);
    assert Fresh(rows[0], j);
    assert first + 0 in after.chunks;
  }

  lemma LazyStartExtends(db: DB, j: nat)
    requires j in db.jobs && Lazy(db.jobs[j])
    ensures FirstStart(db, j).Some? ==>
              Extended(db, FirstStart(db, j).value, j) && j in FirstStart(db, j).value.jobs
              && Lazy(FirstStart(db, j).value.jobs[j])
  {
  }

  lemma {:induction false} InsertedStores(chunks: map<nat, Chunk>, first: nat, rows: seq<Chunk>)
    requires forall c :: c in chunks ==> c < first
    ensures StoredAt(Inserted(chunks, first, rows), first, rows)
    ensures forall c :: c in chunks ==> c in Inserted(chunks, first, rows) && Inserted(chunks, first, rows)[c] == chunks[c]
  {
    hide Inserted;
    InsertedRows(chunks, first, rows);
  }

  lemma InsertedExtends(db: DB, after: DB, j: nat, rows: seq<Chunk>)
    requires FiniteStart(db, after, j, rows) && forall c :: c in db.chunks ==> c < db.nextChunk
    ensures Extended(db, after, j) && StoredAt(after.chunks, db.nextChunk, rows)
  {
    hide Inserted, StoredAt;
    InsertedStores(db.chunks, db.nextChunk, rows);
  }

  lemma FiniteStartKeepsLinks(db: DB, after: DB, j: nat, rows: seq<Chunk>, workers: int)
    requires Linked(db) && LinksHaveRows(db) && FiniteStart(db, after, j, rows)
    requires rows == PreCut(j, db.jobs[j].targets, workers)
    ensures LinksHaveRows(after)
  {
    hide Linked, LinksHaveRows, HasLinkRow, PreCut, Extended, StoredAt;
    ChunksBelow(db);
    InsertedExtends(db, after, j, rows);
    forall i | 0 <= i < |after.jobs[j].targets| && after.jobs[j].targets[i].Link?
      ensures HasLinkRow(after, j, after.jobs[j].targets[i])
    {
      AddedLinks(after, j, db.nextChunk, rows, workers, i);
    }
    if CutInAdvance(after.jobs[j]) { AddedChunk(after, j, db.nextChunk, rows, workers); }
    ExtendedKeepsLinks(db, after, j);
  }

  lemma FirstStartKeepsLinks(db: DB, j: nat)
    requires Linked(db) && LinksHaveRows(db) && j in db.jobs
    ensures FirstStart(db, j).Some? ==> LinksHaveRows(FirstStart(db, j).value)
  {
    if FirstStart(db, j).Some? {
      if Lazy(db.jobs[j]) {
        LazyStartExtends(db, j);
        ExtendedKeepsLinks(db, FirstStart(db, j).value, j);
      } else {
        var rows := PreCut(j, db.jobs[j].targets, OnlineCount(db));
        FiniteStartIs(db, j, rows);
        FiniteStartKeepsLinks(db, FirstStart(db, j).value, j, rows, OnlineCount(db));
      }
    }
  }

  lemma DriveKeepsLinks(db: DB, j: nat, command: Command)
    requires Linked(db) && LinksHaveRows(db) && j in db.jobs
    ensures LinksHaveRows(Drive(db, j, command))
  {
    if command.Start? && db.jobs[j].state.Created? {
      FirstStartKeepsLinks(db, j);
    } else {
      LastingKeepsLinks(db, Drive(db, j, command));
    }
  }

  lemma AddRunningKeepsLinks(db: DB, job: Job)
    requires Safe(db) && LinksHaveRows(db) && job.owner.None? && job.state.Created?
    ensures AddRunning(db, job).Some? ==> LinksHaveRows(AddRunning(db, job).value)
  {
    var d := AddJob(db, job);
    AddJobSafe(db, job);
    ExtendedKeepsLinks(db, d, db.nextJob);
    FirstStartKeepsLinks(d, db.nextJob);
    assert AddRunning(db, job) == FirstStart(d, db.nextJob);
  }

  lemma {:induction false} TransferJobsKeepLinks(db: DB, ts: seq<Transfer>, sources: seq<string>)
    requires Safe(db) && LinksHaveRows(db)
    ensures TransferJobs(db, ts, sources).Some? ==> LinksHaveRows(TransferJobs(db, ts, sources).value)
  {
    if sources != [] {
      var n := |sources| - 1;
      TransferJobsKeepLinks(db, ts, sources[..n]);
      TransferJobsSafe(db, ts, sources[..n]);
      var before := TransferJobs(db, ts, sources[..n]);
      if before.Some? {
        AddRunningKeepsLinks(before.value, NewJob(sources[n], TargetsOf(EntriesOf(ts, sources[n]))));
      }
    }
  }

  lemma PurgeKeepsLinks(db: DB, w: nat)
    requires LinksHaveRows(db)
    ensures LinksHaveRows(Purge(db, w))
  {
    LastingKeepsLinks(db, Purge(db, w));
  }

  lemma SetDrainingKeepsLinks(db: DB, w: nat)
    requires LinksHaveRows(db) && w in db.workers
    ensures LinksHaveRows(SetDraining(db, w))
  {
    LastingKeepsLinks(db, SetDraining(db, w));
  }

  lemma StartDrainKeepsLinks(db: DB, w: nat)
    requires Safe(db) && LinksHaveRows(db) && w in db.workers
    ensures StartDrain(db, w).Some? ==> LinksHaveRows(StartDrain(db, w).value)
  {
    var ts := Plan(db, w);
    TransferJobsKeepLinks(db, ts, Sources(ts));
    if TransferJobs(db, ts, Sources(ts)).Some? {
      SetDrainingKeepsLinks(TransferJobs(db, ts, Sources(ts)).value, w);
    }
  }

  lemma RedistributeKeepsLinks(db: DB, w: nat)
    requires Safe(db) && LinksHaveRows(db)
    ensures LinksHaveRows(Redistribute(db, w))
  {
    RedistributeCases(db, w);
    if w in db.workers && StartDrain(db, w).Some? {
      StartDrainKeepsLinks(db, w);
      PurgeKeepsLinks(StartDrain(db, w).value, w);
    }
  }

  lemma {:induction false} FinalizeKeepsLinks(db: DB, held: set<nat>, order: seq<nat>)
    requires LinksHaveRows(db)
    ensures LinksHaveRows(Finalize(db, held, order))
  {
    if order != [] {
      var n := |order| - 1;
      FinalizeKeepsLinks(db, held, order[..n]);
      PurgeKeepsLinks(Finalize(db, held, order[..n]), order[n]);
    }
  }

  lemma RequeueOneLasts(db: DB, k: Key)
    requires Linked(db) && k in db.tables.items
    ensures Lasting(db, RequeueOne(db, k))
  {
  }

  lemma {:induction false} RequeueKeepsLinks(db: DB, ks: seq<Key>)
    requires Safe(db) && LinksHaveRows(db) && forall i :: 0 <= i < |ks| ==> ks[i] in db.tables.items
    ensures LinksHaveRows(RequeueAll(db, ks)) && RequeueAll(db, ks).jobs == db.jobs
  {
    if ks != [] {
      var n := |ks| - 1;
      var d := RequeueAll(db, ks[..n]);
      RequeueKeepsLinks(db, ks[..n]);
      RequeueAllSafe(db, ks[..n]);
      RequeueOneLasts(d, ks[n]);
      LastingKeepsLinks(d, RequeueOne(d, ks[n]));
    }
  }

  lemma ReopenLasts(db: DB, j: nat)
    requires j in db.jobs && !db.jobs[j].state.Created?
    ensures Lasting(db, WithJob(db, j, db.jobs[j].(state := JobState.Running)))
  {
  }

  lemma RetryKeepsLinks(db: DB, j: nat)
    requires Safe(db) && LinksHaveRows(db) && j in db.jobs
    ensures LinksHaveRows(Retry(db, j))
  {
    var d := RequeueAll(db, RetryList(db, j));
    RequeueKeepsLinks(db, RetryList(db, j));
    if Retry(db, j) != db && Retry(db, j) != d {
      ReopenLasts(d, j);
      LastingKeepsLinks(d, Retry(db, j));
    }
  }

  lemma GrantLasts(db: DB, c: nat, w: nat, lease: int)
    requires c in db.chunks
    ensures Lasting(db, Grant(db, c, w, lease))
  {
  }

  lemma CutKeepsLinks(db: DB, i: nat, w: nat, lease: int)
    requires Linked(db) && LinksHaveRows(db) && i in db.jobs && HasUncut(db.jobs[i])
    ensures LinksHaveRows(Grant(CutPiece(db, i), db.nextChunk, w, lease))
  {
    var e := CutPiece(db, i);
    LastingKeepsLinks(db, e);
    GrantLasts(e, db.nextChunk, w, lease);
    LastingKeepsLinks(e, Grant(e, db.nextChunk, w, lease));
  }

  lemma ReclaimKeepsLinks(db: DB)
    requires Linked(db) && LinksHaveRows(db)
    ensures Linked(ReclaimExpired(db)) && LinksHaveRows(ReclaimExpired(db))
  {
    LastingKeepsLinks(db, ReclaimExpired(db));
  }

  lemma LeaseKeepsLinks(db: DB, w: nat, lease: int)
    requires Safe(db) && LinksHaveRows(db) && w in db.workers
    ensures LinksHaveRows(Lease(db, w, lease).0)
  {
    var d := ReclaimExpired(db);
    var after := Lease(db, w, lease).0;
    ReclaimKeepsLinks(db);
    if after != db && after != d {
      if Takeable(d, w) != {} {
        var c := Least(Takeable(d, w));
        GrantLasts(d, c, w, lease);
        LastingKeepsLinks(d, Grant(d, c, w, lease));
      } else {
        CutKeepsLinks(d, Least(Cuttable(d, w)), w, lease);
      }
    }
  }

  lemma ReportLasts(db: DB, w: nat, c: nat, next: int, rs: seq<Result>)
    requires w in db.workers
    ensures Lasting(db, Progress(db, w, c, next, rs).0)
  {
  }

  lemma CloseLasts(db: DB, w: nat, c: nat, status: ChunkStatus)
    ensures Lasting(db, CompleteChunk(db, w, c, status).0)
  {
  }

  lemma FinishLasts(db: DB, j: nat)
    ensures Lasting(db, MaybeCompleteJob(db, j))
  {
  }

  lemma CompleteKeepsLinks(db: DB, w: nat, c: nat, status: ChunkStatus)
    requires LinksHaveRows(db)
    ensures LinksHaveRows(Apply(db, Complete(w, c, status)))
  {
    hide LinksHaveRows, Lasting, MaybeCompleteJob;
    var d := CompleteChunk(db, w, c, status).0;
    CloseLasts(db, w, c, status);
    LastingKeepsLinks(db, d);
    if c in d.chunks {
      FinishLasts(d, d.chunks[c].job);
      LastingKeepsLinks(d, MaybeCompleteJob(d, d.chunks[c].job));
    }
  }

  lemma WorkLasts(db: DB, r: Request)
    requires r.Report? || r.Fail? || r.SweepJob?
    ensures Lasting(db, Apply(db, r))
  {
    hide Progress, CompleteChunk, MaybeCompleteJob;
    if r.Report? {
      if r.worker in db.workers { ReportLasts(db, r.worker, r.chunk, r.next, r.results); }
    } else if r.Fail? {
      CloseLasts(db, r.worker, r.chunk, ChunkStatus.Failed);
    } else {
      FinishLasts(db, r.swept);
    }
  }

  lemma RestLasts(db: DB, r: Request)
    requires r.Tick? || r.Register? || r.MarkStale? || r.CreateJob? || r.Dismiss? || r.DismissAll?
          || r.DeleteJob? || r.DeleteItems?
    ensures Lasting(db, Apply(db, r))
  {
    RestShape(db, r);
    hide RegisterWorker, MarkStaleWorkers, DropItems, Dismissed;
    if r.Register? || r.MarkStale? { RegisterShape(db, r); }
  }

  lemma BeatLasts(db: DB, r: Request)
    requires r.Heartbeat?
    ensures Lasting(db, Apply(db, r))
  {
    hide BeatHeart;
    if r.worker in db.workers { BeatShape(db, r.worker, r.active, r.lease, r.sample); }
  }

  lemma ApplyKeepsLinks(db: DB, r: Request)
    requires Safe(db) && LinksHaveRows(db)
    ensures LinksHaveRows(Apply(db, r))
  {
    hide Linked, Coherent, UniqueRanges, LinksHaveRows, Lasting, Lease, Drive, Retry, Finalize, Redistribute, Purge,
         Progress;
    if r.TakeLease? {
      if r.worker in db.workers { LeaseKeepsLinks(db, r.worker, r.lease); }
    } else if r.Control? {
      if r.driven in db.jobs { DriveKeepsLinks(db, r.driven, r.command); }
    } else if r.RetryJob? {
      if r.retried in db.jobs { RetryKeepsLinks(db, r.retried); }
    } else if r.SweepDrained? {
      FinalizeKeepsLinks(db, r.held, r.order);
    } else if r.RemoveWorker? {
      RedistributeKeepsLinks(db, r.worker);
      PurgeKeepsLinks(db, r.worker);
    } else if r.Complete? {
      CompleteKeepsLinks(db, r.worker, r.chunk, r.status);
    } else if r.Report? || r.Fail? || r.SweepJob? {
      WorkLasts(db, r);
      LastingKeepsLinks(db, Apply(db, r));
    } else if r.Heartbeat? {
      BeatLasts(db, r);
      LastingKeepsLinks(db, Apply(db, r));
    } else {
      RestLasts(db, r);
      LastingKeepsLinks(db, Apply(db, r));
    }
  }

  lemma {:induction false} EveryRunKeepsLinks(rs: seq<Request>)
    ensures LinksHaveRows(Run(EMPTY, rs))
  {
    if rs != [] {
      var n := |rs| - 1;
      EveryRunKeepsLinks(rs[..n]);
      EveryRunIsSafe(rs[..n]);
      ApplyKeepsLinks(Run(EMPTY, rs[..n]), rs[n]);
    }
  }

  lemma {:induction false} RequeueAllKeepsRow(db: DB, ks: seq<Key>, c: nat)
    requires Safe(db) && c in db.chunks && forall i :: 0 <= i < |ks| ==> ks[i] in db.tables.items
    ensures var after := RequeueAll(db, ks);
            c in after.chunks && SameRange(db.chunks[c], after.chunks[c]) && after.chunks[c].url == db.chunks[c].url
  {
    hide RequeueOne, Coherent, UniqueRanges, OneDownload;
    if ks != [] {
      var n := |ks| - 1;
      var d := RequeueAll(db, ks[..n]);
      RequeueAllKeepsRow(db, ks[..n], c);
      RequeueAllSafe(db, ks[..n]);
      var at := RequeueShape(d, ks[n]);
      RequeueOneLasts(d, ks[n]);
    }
  }

  lemma RetryKeepsRow(db: DB, j: nat, c: nat)
    requires Safe(db) && j in db.jobs && c in db.chunks
    ensures var after := Retry(db, j);
            c in after.chunks && SameRange(db.chunks[c], after.chunks[c]) && after.chunks[c].url == db.chunks[c].url
  {
    hide RequeueAll, RetryList, Retry, Safe;
    RetryCases(db, j);
    RequeueAllKeepsRow(db, RetryList(db, j), c);
  }

  /** In every run, a retry of a job hands the failed video of a link out again in the link's own row, address
      and all, and gives it no other. */
  lemma {:induction false} RetriedLinkKeepsItsAddress(rs: seq<Request>, j: nat, n: nat, i: nat)
    requires var db := Run(EMPTY, rs);
             && j in db.jobs && CutInAdvance(db.jobs[j]) && n < |RetryList(db, j)|
             && i < |db.jobs[j].targets| && db.jobs[j].targets[i].Link? && db.jobs[j].targets[i].id == RetryList(db, j)[n].id
    ensures var db := Run(EMPTY, rs);
            var t, after := db.jobs[j].targets[i], Apply(db, RetryJob(j));
            exists c ::
              && LinkRow(db, j, t, c) && LinkRow(after, j, t, c)
              && after.chunks[c].status.Pending? && after.chunks[c].next == t.id
              && forall d :: d in after.chunks && SameRange(after.chunks[d], after.chunks[c]) ==> d == c
  {
    hide Safe, Retry, RetryList, Run, CutInAdvance, LinksHaveRows;
    var db := Run(EMPTY, rs);
    var t, after := db.jobs[j].targets[i], Apply(db, RetryJob(j));
    var k := RetryList(db, j)[n];
    EveryRunIsSafe(rs);
    EveryRunKeepsLinks(rs);
    RetryHandsBack(db, j);
    assert HandedBack(after, k);
    ApplySafe(db, RetryJob(j));
    var c := RowOfLink(db, j, i);
    RetryKeepsRow(db, j, c);
    var d :| d in after.chunks && after.chunks[d].job == k.job && after.chunks[d].status.Pending?
             && after.chunks[d].lo == after.chunks[d].hi == after.chunks[d].next == k.id;
    UniqueRows(after, c, d);
    assert LinkRow(after, j, t, c);
    forall q | q in after.chunks && SameRange(after.chunks[q], after.chunks[c]) ensures q == c { UniqueRows(after, q, c); }
  }

  lemma RowOfLink(db: DB, j: nat, i: nat) returns (c: nat)
    requires LinksHaveRows(db) && j in db.jobs && CutInAdvance(db.jobs[j])
    requires i < |db.jobs[j].targets| && db.jobs[j].targets[i].Link?
    ensures LinkRow(db, j, db.jobs[j].targets[i], c)
  {
    assert HasLinkRow(db, j, db.jobs[j].targets[i]);
    c :| LinkRow(db, j, db.jobs[j].targets[i], c);
  }

  lemma UniqueRows(db: DB, c: nat, d: nat)
    requires Safe(db) && c in db.chunks && d in db.chunks && SameRange(db.chunks[c], db.chunks[d])
    ensures c == d
  {
  }
}
