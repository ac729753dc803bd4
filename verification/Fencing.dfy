/** Fencing and progress of the lease protocol: only the current holder is heard, and when nothing can
    be leased any more the jobs can be finished. */
module Fencing {
  import opened Rows
  import opened Catalogue
  import opened Database
  import opened SchedulerSpec
  import opened DrainSpec
  import opened Requests
  import opened LeaseSafety
  import opened Pausing

  // ---- Only the holder is heard ------------------------------------------------------------------

  /** Requests about a chunk the sender does not hold change nothing. The one exception is repeating
      the completion of a completed chunk, which only looks once more whether the job is finished. */
  lemma FencedOut(db: DB, w: nat, c: nat, next: int, rs: seq<Result>, status: ChunkStatus)
    requires !Holds(db, w, c)
    ensures Apply(db, Report(w, c, next, rs)) == db
    ensures Apply(db, Fail(w, c)) == db
    ensures var after := Apply(db, Complete(w, c, status));
            after == db || (c in db.chunks && db.chunks[c].status.Completed? && after == MaybeCompleteJob(db, db.chunks[c].job))
  {
  }

  /** Every accepted report in the history came from the worker the chunk was last granted to. */
  ghost predicate Sourced(log: seq<Event>) {
    forall i :: 0 <= i < |log| && log[i].Accepted? ==> LastGrantee(log[..i], log[i].chunk) == Some(log[i].worker)
  }

  lemma {:induction false} SourcedAppend(log: seq<Event>, e: Event)
    requires Sourced(log)
    requires e.Accepted? ==> LastGrantee(log, e.chunk) == Some(e.worker)
    ensures Sourced(log + [e])
  {
    var after := log + [e];
    forall i | 0 <= i < |after| && after[i].Accepted?
      ensures LastGrantee(after[..i], after[i].chunk) == Some(after[i].worker)
    {
      assert after[..i] == log[..i];
      if i == |log| { assert log[..i] == log; }
    }
  }

  lemma {:induction false} RequeueSourced(db: DB, ks: seq<Key>)
    requires Sourced(db.log) && forall i :: 0 <= i < |ks| ==> ks[i] in db.tables.items
    ensures Sourced(RequeueAll(db, ks).log)
  {
    if ks != [] {
      var n := |ks| - 1;
      var d := RequeueAll(db, ks[..n]);
      RequeueSourced(db, ks[..n]);
      var e := RequeueOne(d, ks[n]).log[|d.log|];
      assert RequeueOne(d, ks[n]).log == d.log + [e] && e.Requeued?;
      SourcedAppend(d.log, e);
    }
  }

  lemma LeaseSourced(db: DB, w: nat, lease: int)
    requires Sourced(db.log) && w in db.workers
    ensures Sourced(Lease(db, w, lease).0.log)
  {
    var d := ReclaimExpired(db);
    var after := Lease(db, w, lease).0;
    if after.log != db.log {
      if Takeable(d, w) != {} {
        var c := Least(Takeable(d, w));
        SourcedAppend(d.log, Granted(c, d.chunks[c].job, w));
      } else {
        var i := Least(Cuttable(d, w));
        var piece := NextPiece(i, d.jobs[i]);
        SourcedAppend(d.log, Cut(d.nextChunk, i, piece.lo, piece.hi));
        SourcedAppend(CutPiece(d, i).log, Granted(d.nextChunk, i, w));
      }
    }
  }

  lemma ReportSourced(db: DB, w: nat, c: nat, next: int, rs: seq<Result>)
    requires Safe(db) && Sourced(db.log) && w in db.workers
    ensures Sourced(Progress(db, w, c, next, rs).0.log)
  {
    if Holds(db, w, c) {
      assert CoherentChunk(db, c);
      SourcedAppend(db.log, Accepted(c, db.chunks[c].job, w, Ids(rs), next));
    }
  }

  lemma ApplySourced(db: DB, r: Request)
    requires Safe(db) && Sourced(db.log)
    ensures Sourced(Apply(db, r).log)
  {
    hide Safe, Sourced, LeasesFall, Lease, Progress, Drive, Redistribute, Finalize, Purge;
    if r.TakeLease? {
      if r.worker in db.workers { LeaseSourced(db, r.worker, r.lease); }
    } else if r.Report? {
      if r.worker in db.workers { ReportSourced(db, r.worker, r.chunk, r.next, r.results); }
    } else if r.RetryJob? {
      if r.retried in db.jobs { RequeueSourced(db, RetryList(db, r.retried)); }
    } else {
      OtherFalls(db, r);
    }
  }

  /** In every run, whatever is sent, each accepted report came from the latest grantee of its chunk. */
  lemma {:induction false} OnlyTheHolderIsHeard(rs: seq<Request>)
    ensures Sourced(Run(EMPTY, rs).log)
  {
    if rs != [] {
      var n := |rs| - 1;
      OnlyTheHolderIsHeard(rs[..n]);
      EveryRunIsSafe(rs[..n]);
      ApplySourced(Run(EMPTY, rs[..n]), rs[n]);
    }
  }

  /** In every run, whatever is sent: a report, a completion or a failure that changes any chunk, records
      anything or enters the history comes from the latest grantee of its chunk. */
  lemma {:induction false} OnlyTheHolderActs(rs: seq<Request>, r: Request)
    requires r.Report? || r.Complete? || r.Fail?
    ensures var db := Run(EMPTY, rs);
            var after := Apply(db, r);
            (after.chunks != db.chunks || after.tables != db.tables || after.log != db.log) ==>
              LastGrantee(db.log, r.chunk) == Some(r.worker)
  {
    hide Progress, CompleteChunk, LastGrantee;
    var db := Run(EMPTY, rs);
    EveryRunIsSafe(rs);
    if Holds(db, r.worker, r.chunk) {
      assert CoherentChunk(db, r.chunk);
    } else {
      match r
      case Report(w, c, next, results) => FencedOut(db, w, c, next, results, ChunkStatus.Completed);
      case Complete(w, c, status) => FencedOut(db, w, c, 0, [], status);
      case Fail(w, c) => FencedOut(db, w, c, 0, [], ChunkStatus.Completed);
    }
  }

  /** Sending an accepted report again, its reply having been lost, changes nothing but the attempt
      counters: not the results, not the checkpoint, not who holds the chunk. */
  lemma RepeatedReport(db: DB, w: nat, c: nat, next: int, rs: seq<Result>)
    requires Safe(db) && w in db.workers && Holds(db, w, c)
    ensures var once := Progress(db, w, c, next, rs).0;
            var twice := Progress(once, w, c, next, rs).0;
            SameTables(twice.tables, once.tables) && twice.chunks == once.chunks && twice.jobs == once.jobs
  {
    var j := db.chunks[c].job;
    var once := Progress(db, w, c, next, rs).0;
    RecordTwice(db.tables, ReporterOf(db, w, j), rs);
    if JobRunning(db, j) {
      assert Holds(once, w, c);
      assert ReporterOf(once, w, j) == ReporterOf(db, w, j);
      assert Advanced(once, once.chunks[c], next) == once.chunks[c];
      assert once.chunks[c := once.chunks[c]] == once.chunks;
    } else {
      assert !Holds(once, w, c);
    }
  }

  // ---- Leasing and finishing never deadlock ------------------------------------------------------

  ghost predicate NothingLeased(db: DB, j: nat) {
    forall c :: c in db.chunks && db.chunks[c].job == j ==> !db.chunks[c].status.Leased?
  }

  /** A healthy worker that asks and gets nothing. */
  ghost predicate TurnedAway(db: DB, w: nat, lease: int) {
    && w in db.workers && !db.workers[w].state.Draining? && HasSpace(db.workers[w])
    && Lease(db, w, lease).1.NoWork?
  }

  /** When a healthy worker gets no work, a running job it may work on can be marked completed exactly
      when nobody holds one of its chunks and it has an end: a bounded cursor, or pre-cut chunks. */
  lemma NoDeadlock(db: DB, w: nat, lease: int, j: nat)
    requires Coherent(db) && TurnedAway(db, w, lease)
    requires JobRunning(db, j) && Eligible(db.jobs[j], w)
    ensures var d := Lease(db, w, lease).0;
            j in MaybeCompleteJob(d, j).jobs &&
            (MaybeCompleteJob(d, j).jobs[j].state.Completed? <==>
               NothingLeased(d, j) && if db.jobs[j].cursor.Some? then db.jobs[j].hi.Some? else HasChunk(db, j))
  {
    var d := ReclaimExpired(db);
    assert Lease(db, w, lease).0 == d && d.jobs == db.jobs;
    assert Takeable(d, w) == {} && Cuttable(d, w) == {};
    assert !HasUncut(d.jobs[j]) by { assert j !in Cuttable(d, w); }
    forall c | c in d.chunks && d.chunks[c].job == j ensures d.chunks[c].Open() <==> d.chunks[c].status.Leased? {
      assert CoherentChunk(db, c);
      assert c !in Takeable(d, w);
    }
    if HasChunk(db, j) {
      var c :| c in db.chunks && db.chunks[c].job == j;
      assert c in d.chunks && d.chunks[c].job == j;
    }
    if HasChunk(d, j) {
      var c :| c in d.chunks && d.chunks[c].job == j;
      assert c in db.chunks && db.chunks[c].job == j;
    }
  }
}
