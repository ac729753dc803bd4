/** A lease lasts: until its term is over, nobody but its holder or the user takes the chunk away. */
module LeaseTerm {
  import opened Rows
  import opened Catalogue
  import opened Database
  import opened Chunking
  import opened SchedulerSpec
  import opened DrainSpec
  import opened Requests
  import opened LeaseSafety
  import opened Pausing
  import opened Returning

  /** The server has the chunk, and not before `term` is over does that end by itself. */
  ghost predicate HeldUntil(db: DB, w: nat, c: nat, term: int) {
    && c in db.chunks && db.chunks[c].status.Leased? && db.chunks[c].holder == Some(w)
    && db.chunks[c].expires.Some? && term <= db.chunks[c].expires.value
  }

  /** The holder gives the chunk up, reports on it while its job does not run or asks for a shorter term, or the
      user retries or deletes its job or removes the holder. */
  ghost predicate Disturbs(db: DB, r: Request, w: nat, c: nat, term: int)
    requires c in db.chunks
  {
    var j := db.chunks[c].job;
    || (r.Complete? && r.worker == w && r.chunk == c)
    || (r.Fail? && r.worker == w && r.chunk == c)
    || (r.Report? && r.worker == w && r.chunk == c
        && (!(j in db.jobs && db.jobs[j].state.Running?) || db.now + 120 < term))
    || (r.Heartbeat? && r.worker == w && r.active == Some(c) && db.now + r.lease < term)
    || (r.RemoveWorker? && r.worker == w)
    || r == RetryJob(j) || r == DeleteJob(j)
  }

  // ---- Requests that leave the chunk alone -------------------------------------------------------

  ghost predicate Same(db: DB, after: DB, c: nat) {
    c in db.chunks ==> c in after.chunks && after.chunks[c] == db.chunks[c]
  }

  lemma InitializeSame(db: DB, j: nat, c: nat)
    requires Linked(db) && j in db.jobs
    ensures Initialize(db, j).Some? ==> Same(db, Initialize(db, j).value, c)
  {
    hide PreCut, OneDownload;
    InsertedRows(db.chunks, db.nextChunk, PreCut(j, db.jobs[j].targets, OnlineCount(db)));
  }

  lemma DriveSame(db: DB, j: nat, command: Command, c: nat)
    requires Linked(db) && j in db.jobs
    ensures Same(db, Drive(db, j, command), c) && Drive(db, j, command).now == db.now
  {
    hide Initialize;
    InitializeSame(db, j, c);
  }

  lemma AddRunningSame(db: DB, job: Job, c: nat)
    requires Safe(db) && job.owner.None?
    ensures AddRunning(db, job).Some? ==> Same(db, AddRunning(db, job).value, c) && AddRunning(db, job).value.now == db.now
  {
    hide Initialize;
    AddJobSafe(db, job);
    InitializeSame(AddJob(db, job), db.nextJob, c);
  }

  lemma {:induction false} TransferJobsSame(db: DB, ts: seq<Transfer>, sources: seq<string>, c: nat)
    requires Safe(db)
    ensures TransferJobs(db, ts, sources).Some? ==>
              Same(db, TransferJobs(db, ts, sources).value, c) && TransferJobs(db, ts, sources).value.now == db.now
  {
    hide Safe, AddRunning;
    if sources != [] {
      var n := |sources| - 1;
      TransferJobsSame(db, ts, sources[..n], c);
      TransferJobsSafe(db, ts, sources[..n]);
      var before := TransferJobs(db, ts, sources[..n]);
      if before.Some? { AddRunningSame(before.value, NewJob(sources[n], TargetsOf(EntriesOf(ts, sources[n]))), c); }
    }
  }

  /** Another server goes. */
  lemma PurgeSame(db: DB, v: nat, w: nat, c: nat)
    requires v != w && (c in db.chunks ==> db.chunks[c].holder == Some(w))
    ensures Same(db, Purge(db, v), c) && Purge(db, v).now == db.now
  {
  }

  lemma SetDrainingSame(db: DB, v: nat, w: nat, c: nat)
    requires v in db.workers && v != w && (c in db.chunks ==> db.chunks[c].holder == Some(w))
    ensures Same(db, SetDraining(db, v), c) && SetDraining(db, v).now == db.now
  {
  }

  lemma RedistributeSame(db: DB, v: nat, w: nat, c: nat)
    requires Safe(db) && v != w && c in db.chunks && db.chunks[c].holder == Some(w)
    ensures Same(db, Redistribute(db, v), c) && Redistribute(db, v).now == db.now
  {
    hide Safe, Redistribute, Plan, TransferJobs, Purge, SetDraining;
    RedistributeCases(db, v);
    if v in db.workers && StartDrain(db, v).Some? {
      var ts := Plan(db, v);
      TransferJobsSame(db, ts, Sources(ts), c);
      var d := TransferJobs(db, ts, Sources(ts)).value;
      SetDrainingSame(d, v, w, c);
      PurgeSame(SetDraining(d, v), v, w, c);
    }
  }

  lemma {:induction false} FinalizeSame(db: DB, held: set<nat>, order: seq<nat>, w: nat, c: nat)
    requires w !in order && c in db.chunks && db.chunks[c].holder == Some(w)
    ensures Same(db, Finalize(db, held, order), c) && Finalize(db, held, order).now == db.now
  {
    hide Purge;
    if order != [] {
      var n := |order| - 1;
      FinalizeSame(db, held, order[..n], w, c);
      PurgeSame(Finalize(db, held, order[..n]), order[n], w, c);
    }
  }

  /** The servers of a pass drain, and a server that drains holds nothing. */
  lemma HolderNotListed(db: DB, order: seq<nat>, w: nat, c: nat)
    requires Coherent(db) && ListsDraining(db, order) && c in db.chunks && db.chunks[c].holder == Some(w)
    ensures w !in order
  {
    assert CoherentChunk(db, c);
  }

  lemma {:induction false} RequeueAllSame(db: DB, ks: seq<Key>, c: nat)
    requires Safe(db) && c in db.chunks
    requires forall i :: 0 <= i < |ks| ==> ks[i] in db.tables.items && ks[i].job != db.chunks[c].job
    ensures Same(db, RequeueAll(db, ks), c) && RequeueAll(db, ks).now == db.now
  {
    hide RequeueOne, Safe, Linked;
    if ks != [] {
      var n := |ks| - 1;
      var d := RequeueAll(db, ks[..n]);
      RequeueAllSame(db, ks[..n], c);
      RequeueAllSafe(db, ks[..n]);
      RequeueOneSame(d, ks[n], c);
    }
  }

  lemma RequeueOneSame(db: DB, k: Key, c: nat)
    requires Safe(db) && k in db.tables.items && c in db.chunks && db.chunks[c].job != k.job
    ensures Same(db, RequeueOne(db, k), c) && RequeueOne(db, k).now == db.now
  {
    hide Coherent, UniqueRanges, OneDownload;
  }

  lemma RetrySame(db: DB, i: nat, c: nat)
    requires Safe(db) && i in db.jobs && c in db.chunks && db.chunks[c].job != i
    ensures Same(db, Retry(db, i), c) && Retry(db, i).now == db.now
  {
    hide RequeueAll, RetryList, Retry, Safe;
    RetryCases(db, i);
    RequeueAllSame(db, RetryList(db, i), c);
  }

  // ---- Requests about chunks ---------------------------------------------------------------------

  lemma GrantSame(db: DB, d: nat, v: nat, lease: int, c: nat)
    requires d in db.chunks && d != c
    ensures Same(db, Grant(db, d, v, lease), c) && Grant(db, d, v, lease).now == db.now
  {
  }

  lemma CutSame(db: DB, i: nat, c: nat)
    requires Linked(db) && i in db.jobs && HasUncut(db.jobs[i]) && c in db.chunks
    ensures Same(db, CutPiece(db, i), c) && CutPiece(db, i).now == db.now && c != db.nextChunk
  {
  }

  lemma ReclaimSame(db: DB, w: nat, c: nat, term: int)
    requires HeldUntil(db, w, c, term) && db.now <= term
    ensures Same(db, ReclaimExpired(db), c) && ReclaimExpired(db).now == db.now
  {
  }

  lemma LeaseKeepsTerm(db: DB, v: nat, lease: int, w: nat, c: nat, term: int)
    requires Linked(db) && v in db.workers && HeldUntil(db, w, c, term) && db.now <= term
    ensures Same(db, Lease(db, v, lease).0, c) && Lease(db, v, lease).0.now == db.now
  {
    hide Linked, Clash, HasSpace, CutPiece, Grant;
    var d := ReclaimExpired(db);
    var after := Lease(db, v, lease).0;
    ReclaimSame(db, w, c, term);
    ReclaimLinked(db);
    if after != db && after != d {
      if Takeable(d, v) != {} {
        GrantSame(d, Least(Takeable(d, v)), v, lease, c);
      } else {
        var i := Least(Cuttable(d, v));
        CutSame(d, i, c);
        CutIsNew(d, i);
        GrantSame(CutPiece(d, i), d.nextChunk, v, lease, c);
      }
    }
  }

  /** An accepted report extends the term by 120 seconds from now, and another server's leaves it. */
  lemma ReportKeepsTerm(db: DB, v: nat, d: nat, next: int, rs: seq<Result>, w: nat, c: nat, term: int)
    requires v in db.workers && HeldUntil(db, w, c, term) && !Disturbs(db, Report(v, d, next, rs), w, c, term)
    ensures HeldUntil(Progress(db, v, d, next, rs).0, w, c, term) && Progress(db, v, d, next, rs).0.now == db.now
  {
    hide RecordAll;
  }

  lemma CloseKeepsTerm(db: DB, r: Request, w: nat, c: nat, term: int)
    requires HeldUntil(db, w, c, term) && (r.Complete? || r.Fail?) && !Disturbs(db, r, w, c, term)
    ensures Same(db, Apply(db, r), c) && Apply(db, r).now == db.now
  {
    hide Finishable;
  }

  lemma BeatKeepsTerm(db: DB, r: Request, w: nat, c: nat, term: int)
    requires HeldUntil(db, w, c, term) && r.Heartbeat? && !Disturbs(db, r, w, c, term)
    ensures HeldUntil(Apply(db, r), w, c, term) && Apply(db, r).now == db.now
  {
  }

  lemma RestClock(db: DB, r: Request)
    requires r.Register? || r.MarkStale? || r.CreateJob? || r.Dismiss? || r.DismissAll?
          || r.DeleteJob? || r.DeleteItems? || r.SweepJob?
    ensures Apply(db, r).now == db.now
  {
    hide Finishable, DropItems;
  }

  lemma RestKeepsTerm(db: DB, r: Request, w: nat, c: nat, term: int)
    requires Linked(db) && HeldUntil(db, w, c, term) && !Disturbs(db, r, w, c, term)
    requires r.Tick? || r.Register? || r.MarkStale? || r.CreateJob? || r.Dismiss? || r.DismissAll?
          || r.DeleteJob? || r.DeleteItems? || r.SweepJob?
    ensures Same(db, Apply(db, r), c) && Apply(db, r).now >= db.now
  {
    RestShape(db, r);
    RestJobs(db, r, db.chunks[c].job);
    if !r.Tick? { RestClock(db, r); }
    hide Apply;
  }

  lemma RestJobs(db: DB, r: Request, j: nat)
    requires j in db.jobs && r != DeleteJob(j)
    requires r.Tick? || r.Register? || r.MarkStale? || r.CreateJob? || r.Dismiss? || r.DismissAll?
          || r.DeleteJob? || r.DeleteItems? || r.SweepJob?
    ensures j in Apply(db, r).jobs && (r.Tick? ==> Apply(db, r).now >= db.now)
  {
    hide Finishable, DropItems, Acceptable;
  }

  lemma SameKeepsTerm(db: DB, after: DB, w: nat, c: nat, term: int)
    requires HeldUntil(db, w, c, term) && Same(db, after, c)
    ensures HeldUntil(after, w, c, term)
  {
  }

  /** While its term lasts, a lease survives every request that does not end it on purpose. */
  lemma ApplyKeepsTerm(db: DB, r: Request, w: nat, c: nat, term: int)
    requires Safe(db) && HeldUntil(db, w, c, term) && db.now <= term && !Disturbs(db, r, w, c, term)
    ensures HeldUntil(Apply(db, r), w, c, term) && Apply(db, r).now >= db.now
  {
    hide Linked, Coherent, UniqueRanges, Lease, Progress, Drive, Retry, Finalize, Redistribute, Purge, Same, ListsDraining;
    SameKeepsItself(db, w, c, term);
    if r.TakeLease? {
      if r.worker in db.workers { LeaseKeepsTerm(db, r.worker, r.lease, w, c, term); }
    } else if r.Report? {
      if r.worker in db.workers { ReportKeepsTerm(db, r.worker, r.chunk, r.next, r.results, w, c, term); }
    } else if r.Complete? || r.Fail? {
      CloseKeepsTerm(db, r, w, c, term);
    } else if r.Heartbeat? {
      BeatKeepsTerm(db, r, w, c, term);
    } else if r.Control? {
      if r.driven in db.jobs { DriveSame(db, r.driven, r.command, c); }
    } else if r.RetryJob? {
      if r.retried in db.jobs { RetrySame(db, r.retried, c); }
    } else if r.SweepDrained? {
      if ListsDraining(db, r.order) {
        HolderNotListed(db, r.order, w, c);
        FinalizeSame(db, r.held, r.order, w, c);
      }
    } else if r.RemoveWorker? {
      RedistributeSame(db, r.worker, w, c);
      PurgeSame(db, r.worker, w, c);
    } else {
      RestKeepsTerm(db, r, w, c, term);
    }
    if Same(db, Apply(db, r), c) { SameKeepsTerm(db, Apply(db, r), w, c, term); }
  }

  lemma SameKeepsItself(db: DB, w: nat, c: nat, term: int)
    ensures Same(db, db, c)
  {
  }

  // ---- Over whole runs ---------------------------------------------------------------------------

  /** No request of the run ends the lease on purpose. */
  ghost predicate Undisturbed(db: DB, rs: seq<Request>, w: nat, c: nat, term: int) {
    forall i :: 0 <= i < |rs| && c in Run(db, rs[..i]).chunks ==> !Disturbs(Run(db, rs[..i]), rs[i], w, c, term)
  }

  lemma {:induction false} ClockRuns(db: DB, rs: seq<Request>, n: nat)
    requires Safe(db) && n <= |rs|
    ensures Safe(Run(db, rs)) && Run(db, rs[..n]).now <= Run(db, rs).now
  {
    hide Safe, Apply;
    if rs != [] {
      var m := |rs| - 1;
      if n == |rs| { assert rs[..n] == rs; }
      ClockRuns(db, rs[..m], if n <= m then n else m);
      ApplySafe(Run(db, rs[..m]), rs[m]);
      ApplyClock(Run(db, rs[..m]), rs[m]);
      if n <= m { assert rs[..m][..n] == rs[..n]; }
    }
  }

  /** No request turns the clock back. */
  lemma ApplyClock(db: DB, r: Request)
    requires Safe(db)
    ensures Apply(db, r).now >= db.now
  {
    hide Safe, Lease, Progress, Drive, Retry, Finalize, Redistribute, Purge, BeatHeart;
    if r.TakeLease? {
      if r.worker in db.workers { LeaseShape(db, r.worker, r.lease); }
    } else if r.Report? {
      if r.worker in db.workers { ReportClock(db, r.worker, r.chunk, r.next, r.results); }
    } else if r.Heartbeat? {
      if r.worker in db.workers { BeatShape(db, r.worker, r.active, r.lease, r.sample); }
    } else if r.Control? {
      if r.driven in db.jobs { DriveClock(db, r.driven, r.command); }
    } else if r.RetryJob? {
      if r.retried in db.jobs { RetryClock(db, r.retried); }
    } else if r.SweepDrained? {
      FinalizeClock(db, r.held, r.order);
    } else if r.RemoveWorker? {
      RedistributeClock(db, r.worker);
      PurgeClock(db, r.worker);
    }
  }

  lemma ReportClock(db: DB, w: nat, c: nat, next: int, rs: seq<Result>)
    requires w in db.workers
    ensures Progress(db, w, c, next, rs).0.now == db.now
  {
  }

  lemma DriveClock(db: DB, j: nat, command: Command)
    requires j in db.jobs
    ensures Drive(db, j, command).now == db.now
  {
    hide Initialize;
  }

  lemma {:induction false} RequeueAllClock(db: DB, ks: seq<Key>)
    requires forall i :: 0 <= i < |ks| ==> ks[i] in db.tables.items
    ensures RequeueAll(db, ks).now == db.now
  {
    if ks != [] { RequeueAllClock(db, ks[..|ks| - 1]); }
  }

  lemma RetryClock(db: DB, j: nat)
    requires j in db.jobs
    ensures Retry(db, j).now == db.now
  {
    hide RequeueAll, RetryList, Retry;
    RetryCases(db, j);
    RequeueAllClock(db, RetryList(db, j));
  }

  lemma PurgeClock(db: DB, w: nat)
    ensures Purge(db, w).now == db.now
  {
  }

  lemma {:induction false} FinalizeClock(db: DB, held: set<nat>, order: seq<nat>)
    ensures Finalize(db, held, order).now == db.now
  {
    hide Purge;
    if order != [] {
      FinalizeClock(db, held, order[..|order| - 1]);
      PurgeClock(Finalize(db, held, order[..|order| - 1]), order[|order| - 1]);
    }
  }

  lemma RedistributeClock(db: DB, w: nat)
    requires Safe(db)
    ensures Redistribute(db, w).now == db.now
  {
    hide Safe, Redistribute, Plan, TransferJobs, Purge;
    RedistributeCases(db, w);
    if w in db.workers && StartDrain(db, w).Some? {
      TransferJobsSame(db, Plan(db, w), Sources(Plan(db, w)), 0);
      PurgeClock(StartDrain(db, w).value, w);
    }
  }

  lemma {:induction false} RunKeepsTerm(db: DB, rs: seq<Request>, w: nat, c: nat, term: int)
    requires Safe(db) && HeldUntil(db, w, c, term) && Undisturbed(db, rs, w, c, term) && Run(db, rs).now <= term
    ensures HeldUntil(Run(db, rs), w, c, term)
  {
    hide Safe, HeldUntil, Apply, Disturbs;
    if rs != [] {
      var n := |rs| - 1;
      var before := Run(db, rs[..n]);
      ClockRuns(db, rs, n);
      ClockRuns(db, rs[..n], n);
      forall i | 0 <= i < n && c in Run(db, rs[..n][..i]).chunks
        ensures !Disturbs(Run(db, rs[..n][..i]), rs[..n][i], w, c, term)
      {
        assert rs[..n][..i] == rs[..i] && rs[..n][i] == rs[i];
      }
      RunKeepsTerm(db, rs[..n], w, c, term);
      HeldIsThere(before, w, c, term);
      ApplyKeepsTerm(before, rs[n], w, c, term);
    }
  }

  lemma HeldIsThere(db: DB, w: nat, c: nat, term: int)
    requires HeldUntil(db, w, c, term)
    ensures c in db.chunks
  {
  }

  lemma LeaseTermBegins(db: DB, w: nat, seconds: int, c: nat)
    requires w in db.workers && Lease(db, w, seconds).1 == Given(c)
    ensures HeldUntil(Lease(db, w, seconds).0, w, c, db.now + seconds) && Lease(db, w, seconds).0.now == db.now
  {
    hide Clash, HasSpace;
  }

  /** A lease lasts as long as was asked for: in every run after it, until `seconds` have passed, the server
      still holds the chunk unless it gives it up, shortens the term itself, reports after the job stopped
      running, or the user retries or deletes the job or removes the server. */
  lemma {:induction false} LeaseLasts(db: DB, w: nat, seconds: int, c: nat, rs: seq<Request>)
    requires Safe(db) && w in db.workers && Lease(db, w, seconds).1 == Given(c)
    requires Undisturbed(Apply(db, TakeLease(w, seconds)), rs, w, c, db.now + seconds)
    ensures var end := Run(Apply(db, TakeLease(w, seconds)), rs);
            end.now <= db.now + seconds ==> HasLease(end, w, c)
  {
    hide Lease, Safe, Undisturbed, Run;
    var after := Apply(db, TakeLease(w, seconds));
    ApplySafe(db, TakeLease(w, seconds));
    LeaseTermBegins(db, w, seconds, c);
    if Run(after, rs).now <= db.now + seconds { RunKeepsTerm(after, rs, w, c, db.now + seconds); }
  }

  /** So does the 120 seconds' extension that comes with each accepted report of a running job. */
  lemma {:induction false} ReportExtends(db: DB, w: nat, c: nat, next: int, results: seq<Result>, rs: seq<Request>)
    requires Safe(db) && w in db.workers && Progress(db, w, c, next, results).1 == Stored(true)
    requires Undisturbed(Apply(db, Report(w, c, next, results)), rs, w, c, db.now + 120)
    ensures var end := Run(Apply(db, Report(w, c, next, results)), rs);
            end.now <= db.now + 120 ==> HasLease(end, w, c)
  {
    hide Safe, Undisturbed, Run, RecordAll;
    var after := Apply(db, Report(w, c, next, results));
    ApplySafe(db, Report(w, c, next, results));
    if Run(after, rs).now <= db.now + 120 { RunKeepsTerm(after, rs, w, c, db.now + 120); }
  }

  lemma BeatTermBegins(db: DB, w: nat, c: nat, seconds: int, sample: Option<Option<real>>)
    requires w in db.workers && HasLease(db, w, c)
    ensures HeldUntil(BeatHeart(db, w, Some(c), seconds, sample), w, c, db.now + seconds)
  {
  }

  /** And so does what a heartbeat asks for that names the chunk its sender holds. */
  lemma {:induction false} HeartbeatExtends(db: DB, w: nat, c: nat, seconds: int, sample: Option<Option<real>>, rs: seq<Request>)
    requires Safe(db) && w in db.workers && HasLease(db, w, c)
    requires Undisturbed(Apply(db, Heartbeat(w, Some(c), seconds, sample)), rs, w, c, db.now + seconds)
    ensures var end := Run(Apply(db, Heartbeat(w, Some(c), seconds, sample)), rs);
            end.now <= db.now + seconds ==> HasLease(end, w, c)
  {
    hide Safe, Undisturbed, Run, BeatHeart;
    var after := Apply(db, Heartbeat(w, Some(c), seconds, sample));
    ApplySafe(db, Heartbeat(w, Some(c), seconds, sample));
    BeatTermBegins(db, w, c, seconds, sample);
    if Run(after, rs).now <= db.now + seconds { RunKeepsTerm(after, rs, w, c, db.now + seconds); }
  }

  // ---- And no longer -----------------------------------------------------------------------------

  lemma {:induction false} TermEnds(db: DB, rs: seq<Request>, c: nat, term: int, v: nat, lease: int)
    requires Safe(db) && IsLeased(db, c) && db.chunks[c].expires.Some? && db.chunks[c].expires.value <= term
    requires forall i :: 0 <= i < |rs| ==> Silent(rs[i], c)
    ensures var late := Run(db, rs);
            v in late.workers && !late.workers[v].state.Draining? && late.now > term && !Lease(late, v, lease).1.Conflict? ==>
              var after := Lease(late, v, lease).0;
              !IsLeased(after, c) || GrantsOf(after.log, c) > GrantsOf(db.log, c)
  {
    hide Safe, Lease, Run, Silent, GrantsOf;
    var late := Run(db, rs);
    if v in late.workers && !late.workers[v].state.Draining? && late.now > term && !Lease(late, v, lease).1.Conflict? {
      AbandonedChunksComeBack(db, rs, c, v, lease);
    }
  }

  lemma LeaseTermIs(db: DB, w: nat, seconds: int, c: nat)
    requires w in db.workers && Lease(db, w, seconds).1 == Given(c)
    ensures var after := Lease(db, w, seconds).0;
            IsLeased(after, c) && after.chunks[c].expires == Some(db.now + seconds)
  {
    hide Clash, HasSpace;
  }

  /** A lease nobody reports on or renews is over when `seconds` have passed: the next server that asks finds
      the chunk free, or handed out anew. */
  lemma {:induction false} LeaseEnds(db: DB, w: nat, seconds: int, c: nat, rs: seq<Request>, v: nat, lease: int)
    requires Safe(db) && w in db.workers && Lease(db, w, seconds).1 == Given(c)
    requires forall i :: 0 <= i < |rs| ==> Silent(rs[i], c)
    ensures var granted := Apply(db, TakeLease(w, seconds));
            var late := Run(granted, rs);
            v in late.workers && !late.workers[v].state.Draining? && late.now > db.now + seconds
            && !Lease(late, v, lease).1.Conflict? ==>
              var after := Lease(late, v, lease).0;
              !IsLeased(after, c) || GrantsOf(after.log, c) > GrantsOf(granted.log, c)
  {
    hide Lease, Safe, Run, Silent, GrantsOf;
    ApplySafe(db, TakeLease(w, seconds));
    LeaseTermIs(db, w, seconds, c);
    TermEnds(Apply(db, TakeLease(w, seconds)), rs, c, db.now + seconds, v, lease);
  }

  lemma ReportTermIs(db: DB, w: nat, c: nat, next: int, results: seq<Result>)
    requires w in db.workers && Progress(db, w, c, next, results).1 == Stored(true)
    ensures var after := Progress(db, w, c, next, results).0;
            IsLeased(after, c) && after.chunks[c].expires == Some(db.now + 120)
  {
    hide RecordAll;
  }

  /** Nor does a report extend it for longer. */
  lemma {:induction false} ReportExtensionEnds(db: DB, w: nat, c: nat, next: int, results: seq<Result>, rs: seq<Request>, v: nat, lease: int)
    requires Safe(db) && w in db.workers && Progress(db, w, c, next, results).1 == Stored(true)
    requires forall i :: 0 <= i < |rs| ==> Silent(rs[i], c)
    ensures var reported := Apply(db, Report(w, c, next, results));
            var late := Run(reported, rs);
            v in late.workers && !late.workers[v].state.Draining? && late.now > db.now + 120
            && !Lease(late, v, lease).1.Conflict? ==>
              var after := Lease(late, v, lease).0;
              !IsLeased(after, c) || GrantsOf(after.log, c) > GrantsOf(reported.log, c)
  {
    hide Lease, Safe, Run, Silent, Progress, GrantsOf;
    ApplySafe(db, Report(w, c, next, results));
    ReportTermIs(db, w, c, next, results);
    TermEnds(Apply(db, Report(w, c, next, results)), rs, c, db.now + 120, v, lease);
  }

  lemma BeatTermIs(db: DB, w: nat, c: nat, seconds: int, sample: Option<Option<real>>)
    requires w in db.workers && HasLease(db, w, c)
    ensures var after := BeatHeart(db, w, Some(c), seconds, sample);
            IsLeased(after, c) && after.chunks[c].expires == Some(db.now + seconds)
  {
  }

  /** Nor does a heartbeat. */
  lemma {:induction false} HeartbeatExtensionEnds(db: DB, w: nat, c: nat, seconds: int, sample: Option<Option<real>>, rs: seq<Request>,
                               v: nat, lease: int)
    requires Safe(db) && w in db.workers && HasLease(db, w, c)
    requires forall i :: 0 <= i < |rs| ==> Silent(rs[i], c)
    ensures var renewed := Apply(db, Heartbeat(w, Some(c), seconds, sample));
            var late := Run(renewed, rs);
            v in late.workers && !late.workers[v].state.Draining? && late.now > db.now + seconds
            && !Lease(late, v, lease).1.Conflict? ==>
              var after := Lease(late, v, lease).0;
              !IsLeased(after, c) || GrantsOf(after.log, c) > GrantsOf(renewed.log, c)
  {
    hide Lease, Safe, Run, Silent, BeatHeart, GrantsOf;
    ApplySafe(db, Heartbeat(w, Some(c), seconds, sample));
    BeatTermIs(db, w, c, seconds, sample);
    TermEnds(Apply(db, Heartbeat(w, Some(c), seconds, sample)), rs, c, db.now + seconds, v, lease);
  }
}
