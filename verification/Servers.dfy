/** The coordinator's view of its servers: who registers, who is heard, who is taken for offline, and
    what a removal does. */
module Servers {
  import opened Rows
  import opened Catalogue
  import opened Database
  import opened SchedulerSpec
  import opened DrainSpec
  import opened Requests
  import opened LeaseSafety
  import opened DrainQueue
  import DrainPlan
  import opened LeaseTerm
  import opened Integrity

  // ---- One request -------------------------------------------------------------------------------

  /** Heard from: online, unless it is being emptied. */
  function Heard(state: WorkerState): WorkerState {
    match state
    case Online | Degraded | Offline => WorkerState.Online
    case Draining => WorkerState.Draining
  }

  /** A server that registers again keeps its row and what it measured. */
  lemma RegisteringAgain(db: DB, w: nat)
    requires UniqueNames(db) && w in db.workers
    ensures var row := db.workers[w];
            Apply(db, Register(row.name)) ==
            db.(workers := db.workers[w := Worker(row.name, Heard(row.state), Some(db.now), row.free)])
  {
    var name := db.workers[w].name;
    assert w in WorkersNamed(db, name);
    assert Least(WorkersNamed(db, name)) == w;
  }

  /** A new name gets a new row. */
  lemma RegisteringAnew(db: DB, name: string)
    requires forall w :: w in db.workers ==> db.workers[w].name != name
    ensures Apply(db, Register(name)) ==
            db.(workers := db.workers[db.nextWorker := Worker(name, WorkerState.Online, Some(db.now), None)],
                nextWorker := db.nextWorker + 1)
  {
    assert WorkersNamed(db, name) == {};
  }

  /** A heartbeat is noted with its time and, when it carries one, its free-space sample. */
  lemma HeartbeatIsNoted(db: DB, w: nat, active: Option<nat>, lease: int, sample: Option<Option<real>>)
    requires w in db.workers
    ensures var row, after := db.workers[w], Apply(db, Request.Heartbeat(w, active, lease, sample));
            && after == db.(workers := after.workers, chunks := after.chunks)
            && after.workers == db.workers[w := Worker(row.name, Heard(row.state), Some(db.now),
                                                       match sample case Some(free) => free case None => row.free)]
  {
  }

  /** A report is noted with its time. */
  lemma ReportIsNoted(db: DB, w: nat, c: nat, next: int, rs: seq<Result>)
    requires w in db.workers && HasLease(db, w, c)
    ensures Apply(db, Report(w, c, next, rs)).workers == db.workers[w := db.workers[w].(beat := Some(db.now))]
  {
  }

  /** The sweep takes exactly the online servers for offline that were never heard, or last heard more
      than `s` seconds ago. */
  lemma SweepMarksTheSilent(db: DB, s: int, w: nat)
    requires w in db.workers
    ensures var row, after := db.workers[w], Apply(db, MarkStale(s));
            && after == db.(workers := after.workers) && after.workers.Keys == db.workers.Keys
            && after.workers[w] == (if row.state == WorkerState.Online
                                       && match row.beat case None => true case Some(at) => at + s < db.now
                                    then row.(state := WorkerState.Offline) else row)
  {
  }

  // ---- Heard servers stay online -----------------------------------------------------------------

  /** The server is online and was heard at `t` or later. */
  ghost predicate OnlineSince(db: DB, w: nat, t: int) {
    w in db.workers && db.workers[w].state.Online? && db.workers[w].beat.Some? && db.workers[w].beat.value >= t
  }

  ghost predicate SameServer(db: DB, after: DB, w: nat) {
    w in db.workers ==> w in after.workers && after.workers[w] == db.workers[w]
  }

  lemma RedistributeSpares(db: DB, v: nat, w: nat)
    requires v != w
    ensures SameServer(db, Redistribute(db, v), w)
  {
    hide Redistribute, StartDrain, Purge;
    RedistributeCases(db, v);
    if v in db.workers && StartDrain(db, v).Some? { PurgeSpares(StartDrain(db, v).value, v, w); }
  }

  lemma PurgeSpares(db: DB, v: nat, w: nat)
    requires v != w
    ensures SameServer(db, Purge(db, v), w)
  {
  }

  lemma {:induction false} FinalizeSpares(db: DB, held: set<nat>, order: seq<nat>, w: nat)
    requires w !in order
    ensures SameServer(db, Finalize(db, held, order), w)
  {
    hide Purge, Unmigrated;
    if order != [] {
      var n := |order| - 1;
      assert order[n] in order;
      assert w !in order[..n];
      FinalizeSpares(db, held, order[..n], w);
      PurgeSpares(Finalize(db, held, order[..n]), order[n], w);
    }
  }

  lemma {:induction false} RequeueAllSpares(db: DB, ks: seq<Key>)
    requires forall i :: 0 <= i < |ks| ==> ks[i] in db.tables.items
    ensures RequeueAll(db, ks).workers == db.workers
  {
    if ks != [] { RequeueAllSpares(db, ks[..|ks| - 1]); }
  }

  lemma RetrySpares(db: DB, j: nat)
    requires j in db.jobs
    ensures Retry(db, j).workers == db.workers
  {
    hide RequeueAll, RetryList;
    RequeueAllSpares(db, RetryList(db, j));
  }

  lemma OthersSpare(db: DB, r: Request)
    requires !r.Register? && !r.Heartbeat? && !r.MarkStale? && !r.Report? && !r.SweepDrained? && !r.RemoveWorker?
    ensures Apply(db, r).workers == db.workers
  {
    hide Lease, Initialize, Finishable, Retry;
    if r.TakeLease? {
      if r.worker in db.workers { LeaseShape(db, r.worker, r.lease); }
    } else if r.RetryJob? {
      if r.retried in db.jobs { RetrySpares(db, r.retried); }
    }
  }

  /** Only a removal, or a sweep that looks back less far than the server was heard, makes it offline. */
  predicate TakesOff(db: DB, r: Request, w: nat, t: int) {
    (r.RemoveWorker? && r.worker == w) || (r.MarkStale? && t + r.offlineAfter < db.now)
  }

  lemma ApplyKeepsOnline(db: DB, r: Request, w: nat, t: int)
    requires Linked(db) && OnlineSince(db, w, t) && t <= db.now && !TakesOff(db, r, w, t)
    ensures OnlineSince(Apply(db, r), w, t)
  {
    hide Redistribute, Purge, Finalize, RegisterWorker, Progress, OneDownload;
    if r.RemoveWorker? {
      RedistributeSpares(db, r.worker, w);
      PurgeSpares(db, r.worker, w);
    } else if r.SweepDrained? {
      if ListsDraining(db, r.order) { FinalizeSpares(db, r.held, r.order, w); }
    } else if r.Report? {
      if r.worker in db.workers { ReportKeepsOnline(db, r.worker, r.chunk, r.next, r.results, w, t); }
    } else if r.Register? {
      assert w < db.nextWorker;
      RegisterKeepsOnline(db, r.name, w, t);
    } else if r.Heartbeat? {
      if r.worker in db.workers { HeartbeatIsNoted(db, r.worker, r.active, r.lease, r.sample); }
    } else if r.MarkStale? {
      SweepMarksTheSilent(db, r.offlineAfter, w);
    } else {
      hide Apply;
      OthersSpare(db, r);
    }
  }

  lemma ReportKeepsOnline(db: DB, v: nat, c: nat, next: int, rs: seq<Result>, w: nat, t: int)
    requires v in db.workers && OnlineSince(db, w, t) && t <= db.now
    ensures OnlineSince(Progress(db, v, c, next, rs).0, w, t)
  {
  }

  lemma RegisterKeepsOnline(db: DB, name: string, w: nat, t: int)
    requires OnlineSince(db, w, t) && t <= db.now && w < db.nextWorker
    ensures OnlineSince(RegisterWorker(db, name), w, t)
  {
  }

  lemma {:induction false} RunKeepsOnline(db: DB, rs: seq<Request>, w: nat, t: int)
    requires Safe(db) && OnlineSince(db, w, t) && t <= db.now
    requires forall i :: 0 <= i < |rs| ==> !TakesOff(Run(db, rs[..i]), rs[i], w, t)
    ensures OnlineSince(Run(db, rs), w, t) && Safe(Run(db, rs)) && Run(db, rs).now >= t
  {
    hide Safe, Linked, OnlineSince, Apply, TakesOff;
    if rs != [] {
      var n := |rs| - 1;
      forall i | 0 <= i < n ensures !TakesOff(Run(db, rs[..n][..i]), rs[..n][i], w, t) {
        assert rs[..n][..i] == rs[..i];
      }
      RunKeepsOnline(db, rs[..n], w, t);
      SafeIsLinked(Run(db, rs[..n]));
      ApplySafe(Run(db, rs[..n]), rs[n]);
      ApplyClock(Run(db, rs[..n]), rs[n]);
      ApplyKeepsOnline(Run(db, rs[..n]), rs[n], w, t);
    }
  }

  lemma SafeIsLinked(db: DB)
    requires Safe(db)
    ensures Linked(db)
  {
  }

  /** The server speaks: a heartbeat, a registration under its name, or, while it is online, an accepted report. */
  ghost predicate Speaks(db: DB, r: Request, w: nat) {
    && w in db.workers
    && match r
       case Heartbeat(v, _, _, _) => v == w
       case Register(name) => name == db.workers[w].name
       case Report(v, c, _, _) => v == w && HasLease(db, w, c) && db.workers[w].state.Online?
       case _ => false
  }

  lemma SpeakingIsHeard(db: DB, r: Request, w: nat)
    requires UniqueNames(db) && Speaks(db, r, w) && !db.workers[w].state.Draining?
    ensures OnlineSince(Apply(db, r), w, db.now) && Apply(db, r).now == db.now
  {
    match r
    case Heartbeat(v, active, lease, sample) =>
      HeartbeatIsNoted(db, w, active, lease, sample);
    case Register(name) =>
      RegisteringAgain(db, w);
    case Report(v, c, next, rs) =>
      ReportIsNoted(db, w, c, next, rs);
      ReportClock(db, w, c, next, rs);
  }

  /** A server that speaks and is not being emptied is online for the next `s` seconds at least, if it is
      not removed and the sweeps in between allow servers `s` seconds of silence. */
  lemma {:induction false} HeardStaysOnline(db: DB, r: Request, w: nat, rs: seq<Request>, s: int)
    requires Safe(db) && UniqueNames(db) && Speaks(db, r, w) && !db.workers[w].state.Draining?
    requires forall i :: 0 <= i < |rs| ==>
               !(rs[i].RemoveWorker? && rs[i].worker == w) && (rs[i].MarkStale? ==> rs[i].offlineAfter >= s)
    requires Run(Apply(db, r), rs).now <= db.now + s
    ensures var late := Run(Apply(db, r), rs); w in late.workers && late.workers[w].state == WorkerState.Online
  {
    hide Safe, UniqueNames, Speaks, Apply, Run;
    var after := Apply(db, r);
    SpeakingIsHeard(db, r, w);
    ApplySafe(db, r);
    forall i | 0 <= i < |rs| ensures !TakesOff(Run(after, rs[..i]), rs[i], w, db.now) {
      ClockRuns(after, rs, i);
    }
    RunKeepsOnline(after, rs, w, db.now);
  }

  // ---- Removing a server without losing its videos -----------------------------------------------

  /** Removing a server with redistribution is refused when it is being emptied already or no other server
      is online. Otherwise it is removed at once exactly when each video it completed exists elsewhere too,
      and is left draining when not. */
  lemma RedistributionDecides(db: DB, w: nat)
    requires Safe(db) && w in db.workers
    ensures var after := Apply(db, RemoveWorker(w, true));
            if db.workers[w].state == WorkerState.Draining
               || (forall v :: v in db.workers && v != w ==> db.workers[v].state != WorkerState.Online)
            then after == db
            else if exists k :: OnlyThere(db, w, k)
            then StartDrain(db, w) == Some(after) && w in after.workers && after.workers[w].state == WorkerState.Draining
            else w !in after.workers
  {
    hide StartDrain, Purge, Safe, Unmigrated, OnlyThere;
    StartDrainStarts(db, w);
    PurgeRemoves(StartDrain(db, w).value, w);
    assert (exists k :: OnlyThere(db, w, k)) <==> Unmigrated(db.tables, w) != {} by {
      if exists k :: OnlyThere(db, w, k) {
        var k :| OnlyThere(db, w, k);
        UnmigratedIs(db, w, k);
      }
      if Unmigrated(db.tables, w) != {} {
        var k :| k in Unmigrated(db.tables, w);
        UnmigratedIs(db, w, k);
      }
    }
  }

  lemma PurgeRemoves(db: DB, w: nat)
    ensures w !in Purge(db, w).workers
  {
  }

  lemma StartDrainStarts(db: DB, w: nat)
    requires Safe(db) && w in db.workers
    ensures StartDrain(db, w).Some?
  {
    hide StartDrain, Safe;
    DrainPlan.StartDrainQueues(db, w);
  }

  /** The server is still there with every item it completed. */
  ghost predicate StandsWith(db: DB, after: DB, w: nat) {
    && SameServer(db, after, w)
    && forall k :: k in db.tables.items && db.tables.items[k].worker == Some(w) && db.tables.items[k].status.Completed? ==>
         k in after.tables.items && after.tables.items[k] == db.tables.items[k]
  }

  /** No copy appears on another server. */
  ghost predicate NoNewCopies(db: DB, after: DB) {
    forall k :: k in after.tables.items ==>
      && k in db.tables.items && after.tables.items[k].status == db.tables.items[k].status
      && after.tables.items[k].worker in {None, db.tables.items[k].worker}
  }

  lemma PurgeStands(db: DB, v: nat, w: nat)
    requires v != w
    ensures StandsWith(db, Purge(db, v), w) && NoNewCopies(db, Purge(db, v))
  {
  }

  lemma OnlyThereStays(db: DB, after: DB, w: nat, k: Key)
    requires OnlyThere(db, w, k) && StandsWith(db, after, w) && NoNewCopies(db, after)
    ensures OnlyThere(after, w, k)
  {
  }

  lemma StandsTransitive(x: DB, y: DB, z: DB, w: nat)
    requires w in x.workers && StandsWith(x, y, w) && StandsWith(y, z, w) && NoNewCopies(x, y) && NoNewCopies(y, z)
    ensures StandsWith(x, z, w) && NoNewCopies(x, z)
  {
  }

  /** A server the pass must not remove: it is not being emptied, its removal is somebody else's, or it
      holds the only copy of a video. */
  ghost predicate Spared(db: DB, held: set<nat>, order: seq<nat>, w: nat) {
    w !in order || w in held || exists k :: OnlyThere(db, w, k)
  }

  lemma {:induction false} FinalizeSparesServer(db: DB, held: set<nat>, order: seq<nat>, w: nat)
    requires w in db.workers && Spared(db, held, order, w)
    ensures StandsWith(db, Finalize(db, held, order), w) && NoNewCopies(db, Finalize(db, held, order))
  {
    hide Purge, Unmigrated, OnlyThere, StandsWith, NoNewCopies;
    NothingMoved(db, w);
    if order != [] {
      var n := |order| - 1;
      var before := Finalize(db, held, order[..n]);
      assert order[n] in order && forall v :: v in order[..n] ==> v in order;
      FinalizeSparesServer(db, held, order[..n], w);
      if order[n] != w {
        PurgeStands(before, order[n], w);
        StandsTransitive(db, before, Purge(before, order[n]), w);
      } else if w !in held {
        var k :| OnlyThere(db, w, k);
        OnlyThereStays(db, before, w, k);
        UnmigratedIs(before, w, k);
      }
    }
  }

  lemma NothingMoved(db: DB, w: nat)
    ensures StandsWith(db, db, w) && NoNewCopies(db, db)
  {
  }

  /** A pass removes no server that is not draining, that is held back, or that holds the only copy of some
      video; what such a server completed stays with it. */
  lemma PassSpares(db: DB, held: set<nat>, order: seq<nat>, w: nat)
    requires w in db.workers
    requires db.workers[w].state != WorkerState.Draining || w in held || exists k :: OnlyThere(db, w, k)
    ensures StandsWith(db, Apply(db, SweepDrained(held, order)), w)
  {
    hide Finalize, StandsWith, OnlyThere, NoNewCopies;
    NothingMoved(db, w);
    if ListsDraining(db, order) { FinalizeSparesServer(db, held, order, w); }
  }
}
