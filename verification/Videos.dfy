/** Downloaded videos survive: no report overwrites a completed item, and no play without explicit
    deletions loses a video's last completed copy. */
module Videos {
  import opened Rows
  import opened Catalogue
  import opened Database
  import opened SchedulerSpec
  import opened DrainSpec
  import opened Requests
  import opened LeaseSafety
  import opened DrainSafety
  import opened DrainPlan
  import opened Ledger
  import opened Steps
  import opened Agents
  import opened Protocol

  // ---- Completed items stand ---------------------------------------------------------------------

  /** The item, if it is completed, is not touched. */
  ghost predicate StandsAt(db: DB, after: DB, k: Key) {
    k in db.tables.items && db.tables.items[k].status.Completed? ==>
      k in after.tables.items && after.tables.items[k] == db.tables.items[k]
  }

  /** Completed items are not touched. */
  ghost predicate Stands(db: DB, after: DB) {
    forall k :: StandsAt(db, after, k)
  }

  /** The item's own job does not name its identifier twice. */
  ghost predicate NamedOnce(db: DB, k: Key) {
    k.job in db.jobs && SeparateAt(db.jobs[k.job], k.id)
  }

  /** No job names the identifier twice. */
  ghost predicate AllSeparateAt(db: DB, id: int) {
    forall j :: j in db.jobs ==> SeparateAt(db.jobs[j], id)
  }

  /** The request deletes nothing and removes no worker. */
  predicate Preserving(r: Request) {
    !r.DeleteJob? && !r.DeleteItems? && !r.SweepDrained? && !r.RemoveWorker?
  }

  /** An accepted honest report writes only identifiers that were in hand; so it writes no completed item
      whose identifier its job names once. */
  lemma ReportStands(db: DB, w: nat, c: nat, next: int, rs: seq<Result>, k: Key)
    requires Orderly(db) && w in db.workers && HonestReport(db, w, c, next, rs) && NamedOnce(db, k)
    ensures StandsAt(db, Progress(db, w, c, next, rs).0, k)
  {
    hide HonestReport, Progress, Safe, Shaped, Begun, Covered, Exclusive, Tiled, Concluded, Within, SeparateAt;
    if Holds(db, w, c) {
      ProgressMeans(db, w, c, next, rs);
      var ch := db.chunks[c];
      if k.job == ch.job && ch.next <= k.id < next {
        assert ch.Todo(k.id);
        assert k == Key(ch.job, k.id);
      }
    } else {
      NotHeld(db, w, c, next, rs);
    }
  }

  lemma {:induction false} RequeueStands(db: DB, ks: seq<Key>)
    requires forall i :: 0 <= i < |ks| ==> ks[i] in db.tables.items && Retryable(db.tables.items[ks[i]].status)
    ensures Stands(db, RequeueAll(db, ks))
  {
    hide RequeueAll;
    RequeueAllItems(db, ks);
    forall k ensures StandsAt(db, RequeueAll(db, ks), k) {
      if k in ks {
        var i :| 0 <= i < |ks| && ks[i] == k;
      }
    }
  }

  lemma RetryStands(db: DB, j: nat)
    requires j in db.jobs
    ensures Stands(db, Retry(db, j))
  {
    hide RequeueAll, RetryList, Retry;
    RetryCases(db, j);
    RequeueStands(db, RetryList(db, j));
    forall k ensures StandsAt(db, Retry(db, j), k) {
      assert StandsAt(db, RequeueAll(db, RetryList(db, j)), k);
    }
  }

  lemma QuietStands(db: DB, r: Request)
    requires Preserving(r) && !r.Report? && !r.RetryJob?
    ensures Stands(db, Apply(db, r))
  {
    if r.Dismiss? || r.DismissAll? {
    } else {
      assert Apply(db, r).tables == db.tables by { TablesSame(db, r); }
    }
  }

  lemma TablesSame(db: DB, r: Request)
    requires Preserving(r) && !r.Report? && !r.RetryJob? && !r.Dismiss? && !r.DismissAll?
    ensures Apply(db, r).tables == db.tables
    ensures forall w :: w in db.workers ==> w in Apply(db, r).workers
  {
    hide Lease, BeatHeart, Finishable;
    if r.TakeLease? {
      if r.worker in db.workers { LeaseShape(db, r.worker, r.lease); }
    } else if r.Heartbeat? {
      if r.worker in db.workers { BeatShape(db, r.worker, r.active, r.lease, r.sample); }
    }
  }

  /** Honest requests overwrite no completed item whose identifier its job names once, whatever else that
      job or the others overlap, and even across retries. */
  lemma ApplyStands(db: DB, r: Request, k: Key)
    requires Orderly(db) && HonestRequest(db, r) && Preserving(r) && NamedOnce(db, k)
    ensures StandsAt(db, Apply(db, r), k)
  {
    hide Orderly, HonestReport, HonestComplete, Progress, Retry, NamedOnce;
    if r.Report? {
      if r.worker in db.workers { ReportStands(db, r.worker, r.chunk, r.next, r.results, k); }
    } else if r.RetryJob? {
      if r.retried in db.jobs { RetryStands(db, r.retried); }
    } else {
      QuietStands(db, r);
    }
  }

  lemma WorkersStay(db: DB, r: Request)
    requires Preserving(r)
    ensures forall w :: w in db.workers ==> w in Apply(db, r).workers
  {
    if r.Report? {
    } else if r.RetryJob? {
      if r.retried in db.jobs { RequeueEmpties(db, RetryList(db, r.retried), 0); }
    } else if r.Dismiss? || r.DismissAll? {
    } else {
      TablesSame(db, r);
    }
  }

  // ---- Inputs stay separate ----------------------------------------------------------------------

  /** Every job afterwards has the input of a job before, or does not name the identifier twice. */
  ghost predicate InputsKept(db: DB, after: DB, id: int) {
    forall j :: j in after.jobs ==>
      (j in db.jobs && after.jobs[j].targets == db.jobs[j].targets) || SeparateAt(after.jobs[j], id)
  }

  lemma InputsKeptMeans(db: DB, after: DB, id: int)
    requires AllSeparateAt(db, id) && InputsKept(db, after, id)
    ensures AllSeparateAt(after, id)
  {
    forall j | j in after.jobs ensures SeparateAt(after.jobs[j], id) {
      if j in db.jobs { assert SeparateAt(db.jobs[j], id); }
    }
  }

  /** The same jobs, with the inputs they had. */
  ghost predicate SameInputs(db: DB, after: DB) {
    && (forall j :: j in after.jobs <==> j in db.jobs)
    && (forall j :: j in db.jobs ==> after.jobs[j].targets == db.jobs[j].targets)
  }

  lemma InitializeInputs(db: DB, j: nat)
    requires j in db.jobs
    ensures Initialize(db, j).Some? ==> SameInputs(db, Initialize(db, j).value)
  {
  }

  lemma AddRunningInputs(db: DB, job: Job, id: int)
    requires SeparateAt(job, id)
    ensures AddRunning(db, job).Some? ==> InputsKept(db, AddRunning(db, job).value, id)
  {
    InitializeInputs(AddJob(db, job), db.nextJob);
  }

  lemma {:induction false} TransferJobsInputs(db: DB, ts: seq<Transfer>, sources: seq<string>, id: int)
    requires AllSeparateAt(db, id) && Distinct(ts)
    ensures TransferJobs(db, ts, sources).Some? ==> AllSeparateAt(TransferJobs(db, ts, sources).value, id)
  {
    if sources != [] {
      var n := |sources| - 1;
      TransferJobsInputs(db, ts, sources[..n], id);
      var before := TransferJobs(db, ts, sources[..n]);
      if before.Some? {
        var entries := EntriesOf(ts, sources[n]);
        EntriesCover(ts, sources[n]);
        TransferTargetsDisjoint(entries);
        AddRunningInputs(before.value, NewJob(sources[n], TargetsOf(entries)), id);
        var after := AddRunning(before.value, NewJob(sources[n], TargetsOf(entries)));
        if after.Some? { InputsKeptMeans(before.value, after.value, id); }
      }
    }
  }

  lemma PurgeInputs(db: DB, w: nat, id: int)
    ensures InputsKept(db, Purge(db, w), id)
  {
    PurgeMeans(db, w);
  }

  lemma {:induction false} FinalizeInputs(db: DB, held: set<nat>, order: seq<nat>, id: int)
    requires AllSeparateAt(db, id)
    ensures AllSeparateAt(Finalize(db, held, order), id)
  {
    if order != [] {
      var n := |order| - 1;
      FinalizeInputs(db, held, order[..n], id);
      var d := Finalize(db, held, order[..n]);
      PurgeInputs(d, order[n], id);
      InputsKeptMeans(d, FinalizeOne(d, held, order[n]), id);
    }
  }

  lemma RedistributeInputs(db: DB, w: nat, id: int)
    requires AllSeparateAt(db, id)
    ensures AllSeparateAt(Redistribute(db, w), id)
  {
    RedistributeCases(db, w);
    if w in db.workers && StartDrain(db, w).Some? {
      var ts := Plan(db, w);
      TransfersDistinct(db, PendingKeys(db, w));
      TransferJobsInputs(db, ts, Sources(ts), id);
      var d := TransferJobs(db, ts, Sources(ts)).value;
      InputsKeptMeans(d, SetDraining(d, w), id);
      PurgeInputs(SetDraining(d, w), w, id);
      InputsKeptMeans(SetDraining(d, w), Purge(SetDraining(d, w), w), id);
    }
  }

  lemma {:induction false} RequeueInputs(db: DB, ks: seq<Key>)
    requires forall i :: 0 <= i < |ks| ==> ks[i] in db.tables.items
    ensures RequeueAll(db, ks).jobs == db.jobs
  {
    if ks != [] { RequeueInputs(db, ks[..|ks| - 1]); }
  }

  lemma RetryInputs(db: DB, j: nat)
    requires j in db.jobs
    ensures SameInputs(db, Retry(db, j))
  {
    hide RequeueAll, RetryList, Retry;
    RetryCases(db, j);
    RequeueInputs(db, RetryList(db, j));
  }

  lemma DriveInputs(db: DB, j: nat, command: Command)
    requires j in db.jobs
    ensures SameInputs(db, Drive(db, j, command))
  {
    InitializeInputs(db, j);
  }

  /** Requests keep inputs separate if newly created jobs have separate input. */
  lemma ApplyInputs(db: DB, r: Request, id: int)
    requires AllSeparateAt(db, id) && (r.CreateJob? ==> SeparateAt(r.job, id))
    ensures AllSeparateAt(Apply(db, r), id)
  {
    if r.SweepDrained? {
      FinalizeInputs(db, r.held, r.order, id);
    } else if r.RemoveWorker? {
      RedistributeInputs(db, r.worker, id);
      PurgeInputs(db, r.worker, id);
      InputsKeptMeans(db, Purge(db, r.worker), id);
    } else if r.RetryJob? {
      if r.retried in db.jobs {
        RetryInputs(db, r.retried);
        InputsKeptMeans(db, Retry(db, r.retried), id);
      }
    } else if r.Control? {
      if r.driven in db.jobs {
        DriveInputs(db, r.driven, r.command);
        InputsKeptMeans(db, Drive(db, r.driven, r.command), id);
      }
    } else {
      OtherInputs(db, r, id);
      InputsKeptMeans(db, Apply(db, r), id);
    }
  }

  lemma OtherInputs(db: DB, r: Request, id: int)
    requires !r.SweepDrained? && !r.RemoveWorker? && !r.RetryJob? && !r.Control?
    requires r.CreateJob? ==> SeparateAt(r.job, id)
    ensures InputsKept(db, Apply(db, r), id)
  {
    if r.TakeLease? || r.Report? || r.Complete? || r.Fail? || r.SweepJob? {
      WorkInputs(db, r);
    }
  }

  lemma LeaseInputs(db: DB, w: nat, lease: int)
    requires w in db.workers
    ensures SameInputs(db, Lease(db, w, lease).0)
  {
    hide Clash, Expired, Reclaimed, HasSpace;
    assert ReclaimExpired(db).jobs == db.jobs;
  }

  lemma WorkInputs(db: DB, r: Request)
    requires r.TakeLease? || r.Report? || r.Complete? || r.Fail? || r.SweepJob?
    ensures SameInputs(db, Apply(db, r))
  {
    hide Lease;
    if r.TakeLease? {
      if r.worker in db.workers { LeaseInputs(db, r.worker, r.lease); }
    }
  }

  /** A job's input never changes, and requests that preserve rows keep the job. */
  lemma InputStays(db: DB, r: Request, j: nat)
    requires Linked(db) && Preserving(r) && j in db.jobs
    ensures j in Apply(db, r).jobs && Apply(db, r).jobs[j].targets == db.jobs[j].targets
  {
    hide Retry, Drive;
    if r.TakeLease? || r.Report? || r.Complete? || r.Fail? || r.SweepJob? {
      WorkInputs(db, r);
    } else if r.RetryJob? {
      if r.retried in db.jobs { RetryInputs(db, r.retried); }
    } else if r.Control? {
      if r.driven in db.jobs { DriveInputs(db, r.driven, r.command); }
    }
  }

  // ---- No video is lost over whole plays ---------------------------------------------------------

  /** Not an explicit deletion by the user, and no new job whose input names the identifier twice. */
  ghost predicate Careful(m: Move, id: int) {
    m.Serve? ==>
      && !m.request.DeleteJob? && !m.request.DeleteItems?
      && !(m.request.RemoveWorker? && !m.request.redistribute)
      && (m.request.CreateJob? ==> SeparateAt(m.request.job, id))
  }

  lemma JobOfItem(db: DB, k: Key)
    requires Orderly(db) && k in db.tables.items
    ensures k.job in db.jobs
  {
  }

  lemma ApplyKeepsCopy(db: DB, r: Request, id: int)
    requires Orderly(db) && HonestRequest(db, r) && AllSeparateAt(db, id) && Careful(Serve(r), id)
    requires HasCopy(db, id)
    ensures HasCopy(Apply(db, r), id)
  {
    hide HonestRequest, SeparateAt, Lease, Progress, Retry, Redistribute, Finalize, Drive, Linked, Coherent,
         UniqueRanges, Shaped, Begun, Covered, Exclusive, Unsettled, Tiled, Concluded, Within;
    if r.SweepDrained? {
      FinalizeKeepsCopy(db, r.held, r.order, id);
    } else if r.RemoveWorker? {
      RedistributeKeepsCopy(db, r.worker, id);
    } else {
      var k :| IsCopy(db, k, id);
      JobOfItem(db, k);
      ApplyStands(db, r, k);
      WorkersStay(db, r);
      assert IsCopy(Apply(db, r), k, id);
    }
  }

  /** From any honest state, in every play without explicit deletions, a video that has a completed copy on an
      existing server keeps one, through retries, crashes, hand-overs, drains and removals of drained servers,
      as long as no job names that video twice; what else their inputs overlap does not matter. */
  lemma {:induction false} NoVideoIsLost(s: Sys, ms: seq<Move>, id: int)
    requires Honest(s) && AllSeparateAt(s.db, id) && HasCopy(s.db, id)
    requires forall i :: 0 <= i < |ms| ==> Careful(ms[i], id)
    ensures HasCopy(Play(s, ms).db, id)
    ensures Honest(Play(s, ms)) && AllSeparateAt(Play(s, ms).db, id)
  {
    hide HasCopy, AllSeparateAt, HonestRequest, Attached, AgentAfter, Apply, Linked, Coherent, UniqueRanges, Shaped,
         Begun, Covered, Exclusive, Unsettled, Tiled, Concluded, Within;
    if ms != [] {
      var n := |ms| - 1;
      var before := Play(s, ms[..n]);
      NoVideoIsLost(s, ms[..n], id);
      NextIsHonest(before, ms[n]);
      if Enabled(before, ms[n]) && Arrives(before, ms[n]).Some? {
        var r := Arrives(before, ms[n]).value;
        MovesAreHonest(before, ms[n]);
        ApplyInputs(before.db, r, id);
        ApplyKeepsCopy(before.db, r, id);
      }
    }
  }

  /** Every job's input names no identifier twice. */
  ghost predicate AllSeparate(db: DB) {
    forall j :: j in db.jobs ==> Separate(db.jobs[j])
  }

  /** Hence, when every job's input names no identifier twice, no video at all is lost. */
  lemma {:induction false} NothingIsLost(s: Sys, ms: seq<Move>)
    requires Honest(s) && AllSeparate(s.db)
    requires forall i :: 0 <= i < |ms| ==> forall id :: Careful(ms[i], id)
    ensures forall id :: HasCopy(s.db, id) ==> HasCopy(Play(s, ms).db, id)
  {
    hide Honest, HasCopy, Careful, Play;
    forall id | HasCopy(s.db, id) ensures HasCopy(Play(s, ms).db, id) {
      NoVideoIsLost(s, ms, id);
    }
  }

  lemma MoveStands(s: Sys, m: Move, k: Key)
    requires Honest(s) && (m.Serve? ==> Preserving(m.request)) && NamedOnce(s.db, k)
    ensures StandsAt(s.db, Next(s, m).db, k) && NamedOnce(Next(s, m).db, k)
  {
    hide Orderly, Attached, HonestRequest, Apply, AgentAfter;
    if Enabled(s, m) && Arrives(s, m).Some? {
      MovesAreHonest(s, m);
      OrderlyLinked(s.db);
      ApplyStands(s.db, Arrives(s, m).value, k);
      InputStays(s.db, Arrives(s, m).value, k.job);
    }
  }

  lemma OrderlyLinked(db: DB)
    requires Orderly(db)
    ensures Linked(db)
  {
  }

  /** In every play that deletes nothing and removes no server, no completed item whose identifier its job
      names once is ever overwritten, whatever else the job or the others overlap. */
  lemma {:induction false} CompletedItemsStand(s: Sys, ms: seq<Move>, k: Key)
    requires Honest(s) && NamedOnce(s.db, k)
    requires forall i :: 0 <= i < |ms| ==> ms[i].Serve? ==> Preserving(ms[i].request)
    ensures Honest(Play(s, ms)) && StandsAt(s.db, Play(s, ms).db, k) && NamedOnce(Play(s, ms).db, k)
  {
    hide Honest, Next, NamedOnce, Preserving;
    if ms != [] {
      var n := |ms| - 1;
      CompletedItemsStand(s, ms[..n], k);
      NextIsHonest(Play(s, ms[..n]), ms[n]);
      MoveStands(Play(s, ms[..n]), ms[n], k);
    }
  }

  /** Hence, when every job's input names no identifier twice, no completed item at all is. */
  lemma {:induction false} AllCompletedItemsStand(s: Sys, ms: seq<Move>)
    requires Honest(s) && AllSeparate(s.db)
    requires forall i :: 0 <= i < |ms| ==> ms[i].Serve? ==> Preserving(ms[i].request)
    ensures Stands(s.db, Play(s, ms).db)
  {
    hide Preserving, Play;
    forall k ensures StandsAt(s.db, Play(s, ms).db, k) {
      if k in s.db.tables.items {
        JobOfItem(s.db, k);
        CompletedItemsStand(s, ms, k);
      }
    }
  }
}
