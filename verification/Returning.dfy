/** Work comes back: an abandoned chunk expires whatever heartbeats its holder sends, and a retry hands
    out again every identifier it lists. */
module Returning {
  import opened Rows
  import opened Catalogue
  import opened Database
  import opened Chunking
  import opened SchedulerSpec
  import opened DrainSpec
  import opened Requests
  import opened LeaseSafety
  import opened Steps
  import opened Pausing

  // ---- Abandoned chunks expire -------------------------------------------------------------------

  /** How often the chunk was granted. */
  function GrantsOf(log: seq<Event>, c: nat): nat {
    if log == [] then 0
    else
      var e := log[|log| - 1];
      GrantsOf(log[..|log| - 1], c) + if e.Granted? && e.chunk == c then 1 else 0
  }

  /** The request neither reports on the chunk nor names it as the one being worked on. */
  predicate Silent(r: Request, c: nat) {
    !(r.Report? && r.chunk == c) && !(r.Heartbeat? && r.active == Some(c))
  }

  /** If the chunk is leased afterwards and was not granted again, it was leased before, until the same time. */
  ghost predicate Unrenewed(db: DB, after: DB, c: nat) {
    && db.nextChunk <= after.nextChunk && GrantsOf(db.log, c) <= GrantsOf(after.log, c)
    && (c < db.nextChunk && IsLeased(after, c) && GrantsOf(after.log, c) == GrantsOf(db.log, c) ==>
          IsLeased(db, c) && after.chunks[c].expires == db.chunks[c].expires)
  }

  lemma UnrenewedTransitive(x: DB, y: DB, z: DB, c: nat)
    requires Unrenewed(x, y, c) && Unrenewed(y, z, c)
    ensures Unrenewed(x, z, c)
  {
  }

  /** The chunk is as it was, or not leased. */
  ghost predicate Untouched(db: DB, after: DB, c: nat) {
    && after.log == db.log && db.nextChunk <= after.nextChunk
    && (c < db.nextChunk && IsLeased(after, c) ==> c in db.chunks && after.chunks[c] == db.chunks[c])
  }

  lemma InitializeUntouched(db: DB, j: nat, c: nat)
    requires Linked(db) && j in db.jobs
    ensures Initialize(db, j).Some? ==> Untouched(db, Initialize(db, j).value, c)
  {
    InsertedRows(db.chunks, db.nextChunk, PreCut(j, db.jobs[j].targets, OnlineCount(db)));
  }

  lemma DriveUntouched(db: DB, j: nat, command: Command, c: nat)
    requires Linked(db) && j in db.jobs
    ensures Untouched(db, Drive(db, j, command), c)
  {
    hide Initialize;
    InitializeUntouched(db, j, c);
  }

  lemma AddRunningUntouched(db: DB, job: Job, c: nat)
    requires Safe(db) && job.owner.None?
    ensures AddRunning(db, job).Some? ==> Untouched(db, AddRunning(db, job).value, c)
  {
    hide Initialize;
    AddJobSafe(db, job);
    InitializeUntouched(AddJob(db, job), db.nextJob, c);
  }

  lemma {:induction false} TransferJobsUntouched(db: DB, ts: seq<Transfer>, sources: seq<string>, c: nat)
    requires Safe(db)
    ensures TransferJobs(db, ts, sources).Some? ==> Untouched(db, TransferJobs(db, ts, sources).value, c)
  {
    hide AddRunning, Safe;
    if sources != [] {
      var n := |sources| - 1;
      TransferJobsUntouched(db, ts, sources[..n], c);
      TransferJobsSafe(db, ts, sources[..n]);
      var before := TransferJobs(db, ts, sources[..n]);
      if before.Some? {
        AddRunningUntouched(before.value, NewJob(sources[n], TargetsOf(EntriesOf(ts, sources[n]))), c);
      }
    }
  }

  lemma PurgeUntouched(db: DB, w: nat, c: nat)
    requires Linked(db)
    ensures Untouched(db, Purge(db, w), c)
  {
    hide Purge;
    PurgeMeans(db, w);
  }

  lemma StartDrainUntouched(db: DB, w: nat, c: nat)
    requires Safe(db) && w in db.workers
    ensures StartDrain(db, w).Some? ==> Untouched(db, StartDrain(db, w).value, c)
  {
    hide TransferJobs, Plan, Safe;
    TransferJobsUntouched(db, Plan(db, w), Sources(Plan(db, w)), c);
  }

  lemma RedistributeUntouched(db: DB, w: nat, c: nat)
    requires Safe(db)
    ensures Untouched(db, Redistribute(db, w), c)
  {
    hide Redistribute, StartDrain, Purge, Coherent, UniqueRanges, Linked;
    RedistributeCases(db, w);
    if w in db.workers && StartDrain(db, w).Some? {
      StartDrainUntouched(db, w, c);
      StartDrainSafe(db, w);
      PurgeUntouched(StartDrain(db, w).value, w, c);
    }
  }

  lemma {:induction false} FinalizeUntouched(db: DB, held: set<nat>, order: seq<nat>, c: nat)
    requires Safe(db)
    ensures Untouched(db, Finalize(db, held, order), c)
  {
    hide Purge, Coherent, UniqueRanges, Linked, Unmigrated;
    if order != [] {
      var n := |order| - 1;
      FinalizeUntouched(db, held, order[..n], c);
      FinalizeSafe(db, held, order[..n]);
      PurgeUntouched(Finalize(db, held, order[..n]), order[n], c);
    }
  }

  lemma CloseUntouched(db: DB, w: nat, d: nat, status: ChunkStatus, c: nat)
    ensures Untouched(db, CompleteChunk(db, w, d, status).0, c)
  {
  }

  lemma CompleteUntouched(db: DB, w: nat, d: nat, status: ChunkStatus, c: nat)
    ensures Untouched(db, Apply(db, Complete(w, d, status)), c)
  {
    hide MaybeCompleteJob;
    CloseUntouched(db, w, d, status, c);
    var e := CompleteChunk(db, w, d, status).0;
    if d in e.chunks { FinishUntouched(e, e.chunks[d].job, c); }
  }

  lemma FinishUntouched(db: DB, j: nat, c: nat)
    ensures Untouched(db, MaybeCompleteJob(db, j), c)
  {
  }

  lemma BeatUntouched(db: DB, r: Request, c: nat)
    requires r.Heartbeat? && Silent(r, c)
    ensures Untouched(db, Apply(db, r), c)
  {
  }

  lemma RestUntouched(db: DB, r: Request, c: nat)
    requires r.Tick? || r.Register? || r.MarkStale? || r.CreateJob? || r.Dismiss? || r.DismissAll? || r.DeleteJob?
          || r.DeleteItems?
    ensures Untouched(db, Apply(db, r), c)
  {
    hide Apply;
    RestShape(db, r);
  }

  lemma OtherUntouched(db: DB, r: Request, c: nat)
    requires Safe(db) && Silent(r, c) && !r.TakeLease? && !r.Report? && !r.RetryJob?
    ensures Untouched(db, Apply(db, r), c)
  {
    hide Coherent, UniqueRanges, Drive, Finalize, Redistribute, Purge, CompleteChunk, MaybeCompleteJob, BeatHeart;
    if r.Control? {
      if r.driven in db.jobs { DriveUntouched(db, r.driven, r.command, c); }
    } else if r.SweepDrained? {
      FinalizeUntouched(db, r.held, r.order, c);
    } else if r.RemoveWorker? {
      RedistributeUntouched(db, r.worker, c);
      PurgeUntouched(db, r.worker, c);
    } else if r.Complete? {
      CompleteUntouched(db, r.worker, r.chunk, r.status, c);
    } else if r.Fail? {
      CloseUntouched(db, r.worker, r.chunk, ChunkStatus.Failed, c);
    } else if r.SweepJob? {
      FinishUntouched(db, r.swept, c);
    } else if r.Heartbeat? {
      BeatUntouched(db, r, c);
    } else {
      RestUntouched(db, r, c);
    }
  }

  lemma ReclaimUnrenewed(db: DB, c: nat)
    ensures Unrenewed(db, ReclaimExpired(db), c)
  {
  }

  lemma GrantUnrenewed(db: DB, d: nat, w: nat, lease: int, c: nat)
    requires d in db.chunks
    ensures Unrenewed(db, Grant(db, d, w, lease), c)
  {
    AppendEvent(db.log, Granted(d, db.chunks[d].job, w));
  }

  lemma CutUnrenewed(db: DB, i: nat, c: nat)
    requires i in db.jobs && HasUncut(db.jobs[i])
    ensures Unrenewed(db, CutPiece(db, i), c)
  {
    var piece := NextPiece(i, db.jobs[i]);
    AppendEvent(db.log, Cut(db.nextChunk, i, piece.lo, piece.hi));
  }

  lemma LeaseUnrenewed(db: DB, w: nat, lease: int, c: nat)
    requires w in db.workers
    ensures Unrenewed(db, Lease(db, w, lease).0, c)
  {
    hide Unrenewed, ReclaimExpired, Grant, Clash;
    var d := ReclaimExpired(db);
    var after := Lease(db, w, lease).0;
    Unchanged(db, c);
    ReclaimUnrenewed(db, c);
    if after != db && after != d {
      if Takeable(d, w) != {} {
        GrantUnrenewed(d, Least(Takeable(d, w)), w, lease, c);
      } else {
        var i := Least(Cuttable(d, w));
        CutUnrenewed(d, i, c);
        GrantUnrenewed(CutPiece(d, i), d.nextChunk, w, lease, c);
        UnrenewedTransitive(d, CutPiece(d, i), after, c);
      }
      UnrenewedTransitive(db, d, after, c);
    }
  }

  lemma Unchanged(db: DB, c: nat)
    ensures Unrenewed(db, db, c)
  {
  }

  lemma ReportUnrenewed(db: DB, w: nat, d: nat, next: int, rs: seq<Result>, c: nat)
    requires w in db.workers && c != d
    ensures Unrenewed(db, Progress(db, w, d, next, rs).0, c)
  {
    if Holds(db, w, d) { AppendEvent(db.log, Accepted(d, db.chunks[d].job, w, Ids(rs), next)); }
  }

  lemma RequeueUnrenewed(db: DB, k: Key, c: nat)
    requires Linked(db) && k in db.tables.items
    ensures Unrenewed(db, RequeueOne(db, k), c)
  {
    hide RequeueOne;
    var d := RequeueShape(db, k);
    AppendEvent(db.log, Event.Requeued(d, k.job));
  }

  lemma {:induction false} RequeueAllUnrenewed(db: DB, ks: seq<Key>, c: nat)
    requires Safe(db) && forall i :: 0 <= i < |ks| ==> ks[i] in db.tables.items
    ensures Unrenewed(db, RequeueAll(db, ks), c)
  {
    hide Unrenewed, RequeueOne, Coherent, UniqueRanges, Linked;
    if ks == [] {
      Unchanged(db, c);
    } else {
      var n := |ks| - 1;
      RequeueAllUnrenewed(db, ks[..n], c);
      RequeueAllSafe(db, ks[..n]);
      RequeueUnrenewed(RequeueAll(db, ks[..n]), ks[n], c);
      UnrenewedTransitive(db, RequeueAll(db, ks[..n]), RequeueAll(db, ks), c);
    }
  }

  lemma RetryUnrenewed(db: DB, j: nat, c: nat)
    requires Safe(db) && j in db.jobs
    ensures Unrenewed(db, Retry(db, j), c)
  {
    hide RequeueAll, Safe, GrantsOf;
    RequeueAllUnrenewed(db, RetryList(db, j), c);
  }

  lemma ApplyUnrenewed(db: DB, r: Request, c: nat)
    requires Safe(db) && Silent(r, c)
    ensures Unrenewed(db, Apply(db, r), c)
  {
    hide Safe, Lease, Progress, Retry, Unrenewed;
    Unchanged(db, c);
    if r.TakeLease? {
      if r.worker in db.workers { LeaseUnrenewed(db, r.worker, r.lease, c); }
    } else if r.Report? {
      if r.worker in db.workers { ReportUnrenewed(db, r.worker, r.chunk, r.next, r.results, c); }
    } else if r.RetryJob? {
      if r.retried in db.jobs { RetryUnrenewed(db, r.retried, c); }
    } else {
      OtherUntouched(db, r, c);
      UntouchedUnrenewed(db, Apply(db, r), c);
    }
  }

  lemma UntouchedUnrenewed(db: DB, after: DB, c: nat)
    requires Untouched(db, after, c)
    ensures Unrenewed(db, after, c)
  {
  }

  lemma {:induction false} RunUnrenewed(db: DB, rs: seq<Request>, c: nat)
    requires Safe(db) && forall i :: 0 <= i < |rs| ==> Silent(rs[i], c)
    ensures Safe(Run(db, rs)) && Unrenewed(db, Run(db, rs), c)
  {
    hide Safe, Unrenewed, Apply;
    if rs == [] {
      Unchanged(db, c);
    } else {
      var n := |rs| - 1;
      RunUnrenewed(db, rs[..n], c);
      ApplySafe(Run(db, rs[..n]), rs[n]);
      ApplyUnrenewed(Run(db, rs[..n]), rs[n], c);
      UnrenewedTransitive(db, Run(db, rs[..n]), Run(db, rs), c);
    }
  }

  /** An abandoned chunk comes back: if a leased chunk is no longer reported on or worked on, then however
      many heartbeats its holder sends, once its lease is over and any worker with space asks for work,
      the chunk is either in nobody's hands or was handed out anew. */
  lemma {:induction false} AbandonedChunksComeBack(db: DB, rs: seq<Request>, c: nat, w: nat, lease: int)
    requires Safe(db) && IsLeased(db, c) && db.chunks[c].expires.Some?
    requires forall i :: 0 <= i < |rs| ==> Silent(rs[i], c)
    requires var late := Run(db, rs);
             && w in late.workers && !late.workers[w].state.Draining?
             && late.now > db.chunks[c].expires.value && !Lease(late, w, lease).1.Conflict?
    ensures var after := Lease(Run(db, rs), w, lease).0;
            !IsLeased(after, c) || GrantsOf(after.log, c) > GrantsOf(db.log, c)
  {
    hide Lease;
    var late := Run(db, rs);
    RunUnrenewed(db, rs, c);
    LeaseUnrenewed(late, w, lease, c);
    if IsLeased(late, c) && GrantsOf(late.log, c) == GrantsOf(db.log, c) {
      AskingReclaims(late, w, lease, c);
    }
  }

  /** A worker's request for work ends every lease that is over. */
  lemma {:induction false} AskingReclaims(db: DB, w: nat, lease: int, c: nat)
    requires w in db.workers && !db.workers[w].state.Draining? && !Lease(db, w, lease).1.Conflict?
    requires Linked(db) && c in db.chunks && IsLeased(db, c) && Expired(db.chunks[c], db.now)
    ensures var after := Lease(db, w, lease).0; IsLeased(after, c) ==> GrantsOf(after.log, c) > GrantsOf(db.log, c)
  {
    var d := ReclaimExpired(db);
    var after := Lease(db, w, lease).0;
    assert !IsLeased(d, c);
    if after != d {
      if Takeable(d, w) != {} {
        GrantUnrenewed(d, Least(Takeable(d, w)), w, lease, c);
      } else {
        var i := Least(Cuttable(d, w));
        CutUnrenewed(d, i, c);
        GrantUnrenewed(CutPiece(d, i), d.nextChunk, w, lease, c);
      }
    }
  }

  // ---- A retry hands its identifiers out again ---------------------------------------------------

  /** The identifier's item is pending and a pending single-identifier chunk hands it out. */
  ghost predicate HandedBack(db: DB, k: Key) {
    && k in db.tables.items && db.tables.items[k].status.Pending?
    && exists c :: c in db.chunks && db.chunks[c].job == k.job && db.chunks[c].status.Pending?
                   && db.chunks[c].lo == db.chunks[c].hi == db.chunks[c].next == k.id
  }

  lemma RequeueHandsBack(db: DB, k: Key)
    requires Linked(db) && k in db.tables.items
    ensures HandedBack(RequeueOne(db, k), k)
    ensures forall q :: HandedBack(db, q) ==> HandedBack(RequeueOne(db, k), q)
  {
    hide RequeueOne;
    var c := RequeueMeans(db, k);
    var after := RequeueOne(db, k);
    assert HandedBack(after, k);
    forall q | HandedBack(db, q) && q != k ensures HandedBack(after, q) {
      var d :| d in db.chunks && db.chunks[d].job == q.job && db.chunks[d].status.Pending?
               && db.chunks[d].lo == db.chunks[d].hi == db.chunks[d].next == q.id;
      assert d != c;
      assert d in after.chunks && after.chunks[d] == db.chunks[d];
    }
  }

  lemma {:induction false} RequeueAllHandsBack(db: DB, ks: seq<Key>)
    requires Safe(db) && forall i :: 0 <= i < |ks| ==> ks[i] in db.tables.items
    ensures forall i :: 0 <= i < |ks| ==> HandedBack(RequeueAll(db, ks), ks[i])
  {
    hide HandedBack, RequeueOne, Coherent, UniqueRanges;
    if ks != [] {
      var n := |ks| - 1;
      RequeueAllHandsBack(db, ks[..n]);
      RequeueAllSafe(db, ks[..n]);
      RequeueHandsBack(RequeueAll(db, ks[..n]), ks[n]);
      forall i | 0 <= i < n ensures HandedBack(RequeueAll(db, ks), ks[i]) {
        assert ks[..n][i] == ks[i];
      }
    }
  }

  /** After a retry every listed identifier is pending and handed out again by its own chunk, and a job
      that had finished runs again; a paused or stopped one is left as the user set it. */
  lemma RetryHandsBack(db: DB, j: nat)
    requires Safe(db) && j in db.jobs
    ensures var ks, after := RetryList(db, j), Retry(db, j);
            && (forall i :: 0 <= i < |ks| ==> HandedBack(after, ks[i]))
            && (ks != [] && (db.jobs[j].state.Completed? || db.jobs[j].state.Failed?) ==> JobRunning(after, j))
            && (db.jobs[j].state.Paused? || db.jobs[j].state.Stopped? ==> after.jobs == db.jobs)
  {
    hide RequeueAll, Safe, RetryList;
    var ks := RetryList(db, j);
    RequeueAllHandsBack(db, ks);
    RequeueAllSafe(db, ks);
    if ks != [] {
      var d := RequeueAll(db, ks);
      forall i | 0 <= i < |ks| ensures HandedBack(Retry(db, j), ks[i]) {
        assert HandedBack(d, ks[i]);
        StateNeutral(d, Retry(db, j), ks[i]);
      }
    }
  }

  lemma StateNeutral(db: DB, after: DB, k: Key)
    requires after.chunks == db.chunks && after.tables == db.tables
    ensures HandedBack(db, k) ==> HandedBack(after, k)
  {
  }
}
