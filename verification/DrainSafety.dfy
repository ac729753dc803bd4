/** Draining a server never loses a video, is stable, and finishes once the copies exist. */
module DrainSafety {
  import opened Rows
  import opened Catalogue
  import opened Database
  import opened SchedulerSpec
  import opened DrainSpec
  import opened Requests
  import opened LeaseSafety

  /** A completed copy of the video on an existing server. */
  ghost predicate IsCopy(db: DB, k: Key, id: int) {
    && k in db.tables.items && k.id == id && db.tables.items[k].status.Completed?
    && db.tables.items[k].worker.Some? && db.tables.items[k].worker.value in db.workers
  }

  ghost predicate HasCopy(db: DB, id: int) {
    exists k :: IsCopy(db, k, id)
  }

  // ---- No video is lost --------------------------------------------------------------------------

  lemma PurgeKeepsCopy(db: DB, w: nat, id: int)
    requires Safe(db) && Unmigrated(db.tables, w) == {}
    requires HasCopy(db, id)
    ensures HasCopy(Purge(db, w), id)
  {
    hide Coherent, UniqueRanges, Purge, Detach, OneDownload;
    PurgeMeans(db, w);
    var after := Purge(db, w);
    var k :| IsCopy(db, k, id);
    if db.tables.items[k].worker == Some(w) {
      assert k !in Unmigrated(db.tables, w);
      var other :| other in db.tables.items && other.id == id && db.tables.items[other].status.Completed?
                   && db.tables.items[other].worker.Some? && db.tables.items[other].worker != Some(w);
      assert IsCopy(after, other, id);
    } else {
      assert IsCopy(after, k, id);
    }
  }

  /** A finalize pass, whatever order the draining servers come in, leaves a completed copy of every
      video that had one: each check sees what the pass removed before it. */
  lemma {:induction false} FinalizeKeepsCopy(db: DB, held: set<nat>, order: seq<nat>, id: int)
    requires Safe(db) && HasCopy(db, id)
    ensures HasCopy(Finalize(db, held, order), id)
  {
    if order != [] {
      var n := |order| - 1;
      FinalizeKeepsCopy(db, held, order[..n], id);
      FinalizeSafe(db, held, order[..n]);
      var d := Finalize(db, held, order[..n]);
      if Unmigrated(d.tables, order[n]) == {} {
        PurgeKeepsCopy(d, order[n], id);
      }
    }
  }

  lemma StartDrainKeepsCopy(db: DB, w: nat, id: int)
    requires w in db.workers && HasCopy(db, id)
    ensures StartDrain(db, w).Some? ==> HasCopy(StartDrain(db, w).value, id)
  {
    var k :| IsCopy(db, k, id);
    if StartDrain(db, w).Some? {
      assert IsCopy(StartDrain(db, w).value, k, id);
    }
  }

  /** Distributing a server's videos never loses one either, removed at once or not. */
  lemma RedistributeKeepsCopy(db: DB, w: nat, id: int)
    requires Safe(db) && HasCopy(db, id)
    ensures HasCopy(Redistribute(db, w), id)
  {
    RedistributeCases(db, w);
    var after := Redistribute(db, w);
    if after != db {
      var d := StartDrain(db, w).value;
      StartDrainSafe(db, w);
      StartDrainKeepsCopy(db, w, id);
      if after != d { PurgeKeepsCopy(d, w, id); }
    }
  }

  // ---- Draining is stable ------------------------------------------------------------------------

  ghost predicate Draining(db: DB, w: nat) {
    w in db.workers && db.workers[w].state.Draining?
  }

  ghost predicate HoldsNothing(db: DB, w: nat) {
    forall c :: c in db.chunks ==> db.chunks[c].holder != Some(w)
  }

  /** Still draining with no new completed items, or gone for good. */
  ghost predicate Emptying(db: DB, after: DB, w: nat) {
    && w < after.nextWorker
    && (w in after.workers ==> Draining(after, w))
    && (forall k :: CompletedOn(after.tables, w, k) ==> CompletedOn(db.tables, w, k))
  }

  lemma EmptyingTransitive(a: DB, b: DB, c: DB, w: nat)
    requires Emptying(a, b, w) && Emptying(b, c, w)
    ensures Emptying(a, c, w)
  {
  }

  /** A server that is draining, or was and has been removed. */
  ghost predicate Leaving(db: DB, w: nat) {
    w < db.nextWorker && (w in db.workers ==> Draining(db, w))
  }

  lemma LeavingHoldsNothing(db: DB, w: nat)
    requires Safe(db) && Leaving(db, w)
    ensures HoldsNothing(db, w)
  {
    HoldersStand(db);
  }

  lemma PurgeEmpties(db: DB, v: nat, w: nat)
    requires Safe(db) && Leaving(db, w)
    ensures Emptying(db, Purge(db, v), w)
  {
    PurgeMeans(db, v);
  }

  lemma {:induction false} FinalizeEmpties(db: DB, held: set<nat>, order: seq<nat>, w: nat)
    requires Safe(db) && Leaving(db, w)
    ensures Emptying(db, Finalize(db, held, order), w)
  {
    if order != [] {
      var n := |order| - 1;
      FinalizeEmpties(db, held, order[..n], w);
      FinalizeSafe(db, held, order[..n]);
      PurgeEmpties(Finalize(db, held, order[..n]), order[n], w);
    }
  }

  lemma StartDrainEmpties(db: DB, v: nat, w: nat)
    requires Leaving(db, w) && v in db.workers && StartDrain(db, v).Some?
    ensures Emptying(db, StartDrain(db, v).value, w)
  {
  }

  lemma RedistributeEmpties(db: DB, v: nat, w: nat)
    requires Safe(db) && Leaving(db, w)
    ensures Emptying(db, Redistribute(db, v), w)
  {
    RedistributeCases(db, v);
    var after := Redistribute(db, v);
    if after != db {
      var d := StartDrain(db, v).value;
      StartDrainSafe(db, v);
      StartDrainEmpties(db, v, w);
      if after != d {
        PurgeEmpties(d, v, w);
        EmptyingTransitive(db, d, after, w);
      }
    }
  }

  lemma ReportEmpties(db: DB, v: nat, c: nat, next: int, rs: seq<Result>, w: nat)
    requires Safe(db) && Leaving(db, w) && v in db.workers
    ensures Emptying(db, Progress(db, v, c, next, rs).0, w)
  {
    LeavingHoldsNothing(db, w);
    if Holds(db, v, c) {
      assert v != w;
      RecordAllItems(db.tables, ReporterOf(db, v, db.chunks[c].job), rs);
    }
  }

  lemma {:induction false} RequeueEmpties(db: DB, ks: seq<Key>, w: nat)
    requires forall i :: 0 <= i < |ks| ==> ks[i] in db.tables.items
    ensures RequeueAll(db, ks).workers == db.workers && RequeueAll(db, ks).nextWorker == db.nextWorker
    ensures forall k :: CompletedOn(RequeueAll(db, ks).tables, w, k) ==> CompletedOn(db.tables, w, k)
  {
    if ks != [] {
      RequeueEmpties(db, ks[..|ks| - 1], w);
    }
  }

  lemma RetryEmpties(db: DB, j: nat, w: nat)
    requires j in db.jobs && Leaving(db, w)
    ensures Emptying(db, Retry(db, j), w)
  {
    hide RequeueAll, RetryList, Retry;
    RetryCases(db, j);
    RequeueEmpties(db, RetryList(db, j), w);
  }

  lemma DropEmpties(db: DB, r: Request, w: nat)
    requires Leaving(db, w)
    requires r.DeleteJob? || r.DeleteItems? || r.Dismiss? || r.DismissAll?
    ensures Emptying(db, Apply(db, r), w)
  {
  }

  lemma LifecycleEmpties(db: DB, r: Request, w: nat)
    requires Leaving(db, w)
    requires r.Tick? || r.CreateJob? || r.Control? || r.SweepJob? || r.TakeLease? || r.Complete? || r.Fail?
    ensures Emptying(db, Apply(db, r), w)
  {
    hide Lease, Initialize, Finishable;
    var after := Apply(db, r);
    if r.TakeLease? {
      if r.worker in db.workers { LeaseShape(db, r.worker, r.lease); }
    }
    assert after.tables == db.tables;
    assert after.workers == db.workers;
  }

  lemma WorkerEmpties(db: DB, r: Request, w: nat)
    requires Safe(db) && Leaving(db, w)
    requires r.Register? || r.Heartbeat? || r.MarkStale?
    ensures Emptying(db, Apply(db, r), w)
  {
    hide Safe, BeatHeart;
    if r.Heartbeat? && r.worker in db.workers { BeatShape(db, r.worker, r.active, r.lease, r.sample); }
    assert Apply(db, r).tables == db.tables;
  }

  /** No request revives a draining server or gives it a video: not heartbeats, registrations, sweeps,
      or reports, whatever they contain. */
  lemma ApplyEmpties(db: DB, r: Request, w: nat)
    requires Safe(db) && Leaving(db, w)
    ensures Emptying(db, Apply(db, r), w)
  {
    hide Safe, Lease, Progress, Retry, Redistribute, Purge, Drive;
    if r.Report? {
      if r.worker in db.workers { ReportEmpties(db, r.worker, r.chunk, r.next, r.results, w); }
    } else if r.RetryJob? {
      if r.retried in db.jobs { RetryEmpties(db, r.retried, w); }
    } else if r.SweepDrained? {
      FinalizeEmpties(db, r.held, r.order, w);
    } else if r.RemoveWorker? {
      RedistributeEmpties(db, r.worker, w);
      PurgeEmpties(db, r.worker, w);
    } else if r.Register? || r.Heartbeat? || r.MarkStale? {
      WorkerEmpties(db, r, w);
    } else if r.DeleteJob? || r.DeleteItems? || r.Dismiss? || r.DismissAll? {
      DropEmpties(db, r, w);
    } else {
      LifecycleEmpties(db, r, w);
    }
  }

  /** In every run a draining server stays draining until it is removed, holds no lease, and its set of
      completed items only shrinks. */
  lemma {:induction false} DrainingIsStable(db: DB, rs: seq<Request>, w: nat)
    requires Safe(db) && Leaving(db, w)
    ensures Emptying(db, Run(db, rs), w) && HoldsNothing(Run(db, rs), w) && Safe(Run(db, rs))
  {
    if rs == [] {
      LeavingHoldsNothing(db, w);
    } else {
      var n := |rs| - 1;
      var before := Run(db, rs[..n]);
      DrainingIsStable(db, rs[..n], w);
      ApplyEmpties(before, rs[n], w);
      ApplySafe(before, rs[n]);
      EmptyingTransitive(db, before, Run(db, rs), w);
      LeavingHoldsNothing(Run(db, rs), w);
    }
  }

  // ---- Draining finishes -------------------------------------------------------------------------

  /** A completed copy on a server that is neither `w` nor draining itself. */
  ghost predicate IsSettled(db: DB, w: nat, k: Key, id: int) {
    IsCopy(db, k, id) && db.tables.items[k].worker != Some(w) && !Draining(db, db.tables.items[k].worker.value)
  }

  ghost predicate Settled(db: DB, w: nat, id: int) {
    exists k :: IsSettled(db, w, k, id)
  }

  lemma FinalizeOneKeepsSettled(db: DB, held: set<nat>, v: nat, w: nat, k: Key, id: int)
    requires Safe(db) && IsSettled(db, w, k, id) && Leaving(db, v)
    ensures IsSettled(FinalizeOne(db, held, v), w, k, id)
  {
    PurgeMeans(db, v);
  }

  /** Purging one server changes neither the rows nor the state of another. */
  lemma FinalizeOneKeepsWorker(db: DB, held: set<nat>, v: nat, u: nat)
    ensures u != v ==> (u in FinalizeOne(db, held, v).workers <==> u in db.workers)
    ensures u in FinalizeOne(db, held, v).workers ==> u in db.workers && FinalizeOne(db, held, v).workers[u] == db.workers[u]
  {
    PurgeMeans(db, v);
  }

  lemma {:induction false} FinalizeKeepsSettled(db: DB, held: set<nat>, order: seq<nat>, w: nat, k: Key, id: int)
    requires Safe(db) && IsSettled(db, w, k, id)
    requires forall i :: 0 <= i < |order| ==> Leaving(db, order[i])
    ensures IsSettled(Finalize(db, held, order), w, k, id)
    ensures forall i :: 0 <= i < |order| ==> Leaving(Finalize(db, held, order), order[i])
    ensures forall u :: u !in order && u in db.workers ==> u in Finalize(db, held, order).workers
  {
    if order != [] {
      var n := |order| - 1;
      FinalizeKeepsSettled(db, held, order[..n], w, k, id);
      FinalizeSafe(db, held, order[..n]);
      var d := Finalize(db, held, order[..n]);
      assert Leaving(d, order[n]) by { FinalizeEmpties(db, held, order[..n], order[n]); }
      FinalizeOneKeepsSettled(d, held, order[n], w, k, id);
      forall i | 0 <= i < |order| ensures Leaving(Finalize(db, held, order), order[i]) {
        FinalizeEmpties(db, held, order, order[i]);
      }
      forall u | u !in order && u in db.workers ensures u in Finalize(db, held, order).workers {
        assert u !in order[..n] && u != order[n];
        FinalizeOneKeepsWorker(d, held, order[n], u);
      }
    }
  }

  ghost predicate AllSettled(db: DB, w: nat) {
    forall k :: CompletedOn(db.tables, w, k) ==> Settled(db, w, k.id)
  }

  lemma {:induction false} FinalizeKeepsAllSettled(db: DB, held: set<nat>, order: seq<nat>, w: nat)
    requires Safe(db) && AllSettled(db, w) && Leaving(db, w)
    requires forall i :: 0 <= i < |order| ==> Leaving(db, order[i])
    ensures AllSettled(Finalize(db, held, order), w)
  {
    var after := Finalize(db, held, order);
    FinalizeEmpties(db, held, order, w);
    forall k | CompletedOn(after.tables, w, k) ensures Settled(after, w, k.id) {
      var q :| IsSettled(db, w, q, k.id);
      FinalizeKeepsSettled(db, held, order, w, q, k.id);
    }
  }

  lemma AllSettledMigrated(db: DB, w: nat)
    requires AllSettled(db, w)
    ensures Unmigrated(db.tables, w) == {}
  {
    forall k | CompletedOn(db.tables, w, k) ensures CopyElsewhere(db.tables, w, k.id) {
      var q :| IsSettled(db, w, q, k.id);
      assert q in db.tables.items;
    }
  }

  /** Once a server is gone from the pass it stays gone. */
  lemma {:induction false} FinalizeForgets(db: DB, held: set<nat>, order: seq<nat>, w: nat)
    requires w !in db.workers
    ensures w !in Finalize(db, held, order).workers
  {
    if order != [] {
      var n := |order| - 1;
      FinalizeForgets(db, held, order[..n], w);
      PurgeMeans(Finalize(db, held, order[..n]), order[n]);
    }
  }

  /** If every video of a draining server has a copy on a server that is not draining, and nothing
      holds the server back, the next pass removes it. */
  lemma {:induction false} FinalizeRemoves(db: DB, held: set<nat>, order: seq<nat>, w: nat)
    requires Safe(db) && Leaving(db, w) && w !in held && AllSettled(db, w)
    requires w in order && forall i :: 0 <= i < |order| ==> Leaving(db, order[i])
    ensures w !in Finalize(db, held, order).workers
  {
    var n := |order| - 1;
    var d := Finalize(db, held, order[..n]);
    if order[n] == w {
      FinalizeSafe(db, held, order[..n]);
      FinalizeKeepsAllSettled(db, held, order[..n], w);
      AllSettledMigrated(d, w);
      PurgeMeans(d, w);
    } else {
      assert w in order[..n];
      FinalizeRemoves(db, held, order[..n], w);
      PurgeMeans(d, order[n]);
    }
  }

  /** Draining concludes: start draining `w`, let anything happen, and once each video `w` held at the
      start has a completed copy on a server that is not draining, the next pass removes `w`. */
  lemma {:induction false} DrainingConcludes(db: DB, w: nat, rs: seq<Request>, held: set<nat>, order: seq<nat>)
    requires Safe(db) && w in db.workers && StartDrain(db, w).Some?
    requires var later := Run(StartDrain(db, w).value, rs);
             && w !in held && ListsDraining(later, order)
             && forall k :: CompletedOn(db.tables, w, k) ==> Settled(later, w, k.id)
    ensures w !in Finalize(Run(StartDrain(db, w).value, rs), held, order).workers
  {
    var start := StartDrain(db, w).value;
    var later := Run(start, rs);
    StartDrainSafe(db, w);
    DrainingIsStable(start, rs, w);
    if w in later.workers {
      FinalizeRemoves(later, held, order, w);
    } else {
      FinalizeForgets(later, held, order, w);
    }
  }
}
