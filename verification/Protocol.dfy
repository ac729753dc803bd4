/** The whole protocol: in every play of operators, sweepers and honest agents, with crashes and lost
    messages, the database stays orderly and each agent agrees with the chunk it holds. */
module Protocol {
  import opened Rows
  import opened Catalogue
  import opened Database
  import opened Chunking
  import opened SchedulerSpec
  import opened DrainSpec
  import opened Requests
  import opened LeaseSafety
  import opened Ledger
  import opened Steps
  import opened Agents

  // ---- Who may touch a held chunk ----------------------------------------------------------------

  /** Chunks held by `w` afterwards were held by it before, at the same checkpoint (new ids aside). */
  ghost predicate HoldKept(db: DB, after: DB, w: nat) {
    && db.nextChunk <= after.nextChunk
    && (forall c :: c in after.chunks && c < db.nextChunk && after.chunks[c].holder == Some(w) ==>
          c in db.chunks && db.chunks[c].holder == Some(w)
          && after.chunks[c].next == db.chunks[c].next && SameRange(db.chunks[c], after.chunks[c]))
  }

  lemma HoldKeptTransitive(a: DB, b: DB, c: DB, w: nat)
    requires HoldKept(a, b, w) && HoldKept(b, c, w)
    ensures HoldKept(a, c, w)
  {
  }

  lemma CutHoldKept(db: DB, j: nat, w: nat)
    requires j in db.jobs && HasUncut(db.jobs[j])
    ensures HoldKept(db, CutPiece(db, j), w)
  {
  }

  lemma GrantHoldKept(db: DB, c: nat, v: nat, lease: int, w: nat)
    requires c in db.chunks && v != w
    ensures HoldKept(db, Grant(db, c, v, lease), w)
  {
  }

  lemma ReclaimHoldKept(db: DB, w: nat)
    ensures HoldKept(db, ReclaimExpired(db), w) && HoldKept(db, db, w)
  {
  }

  lemma LeaseHoldKept(db: DB, v: nat, lease: int, w: nat)
    requires v in db.workers && v != w
    ensures HoldKept(db, Lease(db, v, lease).0, w)
  {
    hide HoldKept, Clash, HasSpace, CutPiece, Grant;
    var d := ReclaimExpired(db);
    var after := Lease(db, v, lease).0;
    ReclaimHoldKept(db, w);
    if after != db && after != d {
      if Takeable(d, v) != {} {
        GrantHoldKept(d, Least(Takeable(d, v)), v, lease, w);
      } else {
        var j := Least(Cuttable(d, v));
        CutHoldKept(d, j, w);
        CutIsNew(d, j);
        GrantHoldKept(CutPiece(d, j), d.nextChunk, v, lease, w);
        HoldKeptTransitive(d, CutPiece(d, j), after, w);
      }
      HoldKeptTransitive(db, d, after, w);
    }
  }

  lemma {:induction false} RequeueHoldKept(db: DB, ks: seq<Key>, w: nat)
    requires forall i :: 0 <= i < |ks| ==> ks[i] in db.tables.items
    ensures HoldKept(db, RequeueAll(db, ks), w)
  {
    if ks != [] {
      var d := RequeueAll(db, ks[..|ks| - 1]);
      RequeueHoldKept(db, ks[..|ks| - 1], w);
      assert HoldKept(d, RequeueOne(d, ks[|ks| - 1]), w);
    }
  }

  lemma RetryHoldKept(db: DB, j: nat, w: nat)
    requires j in db.jobs
    ensures HoldKept(db, Retry(db, j), w)
  {
    hide RequeueAll, RetryList, Retry;
    RetryCases(db, j);
    RequeueHoldKept(db, RetryList(db, j), w);
  }

  lemma InitializeHoldKept(db: DB, j: nat, w: nat)
    requires Linked(db) && j in db.jobs
    ensures Initialize(db, j).Some? ==> HoldKept(db, Initialize(db, j).value, w)
  {
    var rows := PreCut(j, db.jobs[j].targets, OnlineCount(db));
    InsertedRows(db.chunks, db.nextChunk, rows);
  }

  lemma DriveHoldKept(db: DB, j: nat, command: Command, w: nat)
    requires Linked(db) && j in db.jobs
    ensures HoldKept(db, Drive(db, j, command), w)
  {
    InitializeHoldKept(db, j, w);
  }

  lemma AddRunningHoldKept(db: DB, job: Job, w: nat)
    requires Safe(db) && job.owner.None?
    ensures AddRunning(db, job).Some? ==> HoldKept(db, AddRunning(db, job).value, w)
  {
    AddJobSafe(db, job);
    InitializeHoldKept(AddJob(db, job), db.nextJob, w);
  }

  lemma {:induction false} TransferJobsHoldKept(db: DB, ts: seq<Transfer>, sources: seq<string>, w: nat)
    requires Safe(db)
    ensures TransferJobs(db, ts, sources).Some? ==> HoldKept(db, TransferJobs(db, ts, sources).value, w)
  {
    if sources != [] {
      var n := |sources| - 1;
      TransferJobsHoldKept(db, ts, sources[..n], w);
      TransferJobsSafe(db, ts, sources[..n]);
      var before := TransferJobs(db, ts, sources[..n]);
      if before.Some? {
        AddRunningHoldKept(before.value, NewJob(sources[n], TargetsOf(EntriesOf(ts, sources[n]))), w);
      }
    }
  }

  lemma PurgeHoldKept(db: DB, v: nat, w: nat)
    ensures HoldKept(db, Purge(db, v), w)
  {
    PurgeMeans(db, v);
  }

  lemma RedistributeHoldKept(db: DB, v: nat, w: nat)
    requires Safe(db)
    ensures HoldKept(db, Redistribute(db, v), w)
  {
    hide Safe, Redistribute, Plan, TransferJobs;
    RedistributeCases(db, v);
    if v in db.workers && StartDrain(db, v).Some? {
      var ts := Plan(db, v);
      TransferJobsHoldKept(db, ts, Sources(ts), w);
      var d := TransferJobs(db, ts, Sources(ts)).value;
      assert HoldKept(d, SetDraining(d, v), w);
      PurgeHoldKept(SetDraining(d, v), v, w);
    }
  }

  lemma {:induction false} FinalizeHoldKept(db: DB, held: set<nat>, order: seq<nat>, w: nat)
    ensures HoldKept(db, Finalize(db, held, order), w)
  {
    if order != [] {
      var n := |order| - 1;
      FinalizeHoldKept(db, held, order[..n], w);
      PurgeHoldKept(Finalize(db, held, order[..n]), order[n], w);
    }
  }

  /** Only a worker's own leases and reports move the chunks it holds. */
  lemma ApplyHoldKept(db: DB, r: Request, w: nat)
    requires Safe(db)
    requires r.TakeLease? || r.Report? ==> r.worker != w
    ensures HoldKept(db, Apply(db, r), w)
  {
    hide Linked, Coherent, UniqueRanges, Finalize, Redistribute, Purge, Drive, Lease, Progress, Retry, HoldKept;
    ReclaimHoldKept(db, w);
    if r.TakeLease? {
      if r.worker in db.workers { LeaseHoldKept(db, r.worker, r.lease, w); }
    } else if r.Report? {
      ReportHoldKept(db, r.worker, r.chunk, r.next, r.results, w);
    } else if r.Control? {
      if r.driven in db.jobs { DriveHoldKept(db, r.driven, r.command, w); }
    } else if r.RetryJob? {
      if r.retried in db.jobs { RetryHoldKept(db, r.retried, w); }
    } else if r.SweepDrained? {
      FinalizeHoldKept(db, r.held, r.order, w);
    } else if r.RemoveWorker? {
      RedistributeHoldKept(db, r.worker, w);
      PurgeHoldKept(db, r.worker, w);
    } else {
      OtherHoldKept(db, r, w);
    }
  }

  lemma ReportHoldKept(db: DB, v: nat, c: nat, next: int, rs: seq<Result>, w: nat)
    requires v != w
    ensures HoldKept(db, Apply(db, Report(v, c, next, rs)), w)
  {
  }

  lemma OtherHoldKept(db: DB, r: Request, w: nat)
    requires !(r.TakeLease? || r.Report? || r.Control? || r.RetryJob? || r.SweepDrained? || r.RemoveWorker?)
    ensures HoldKept(db, Apply(db, r), w)
  {
    if r.Complete? || r.Fail? {
      CloseHoldKept(db, r, w);
    } else if r.Heartbeat? {
      BeatHoldKept(db, r, w);
    } else {
      RestHoldKept(db, r, w);
    }
  }

  lemma CloseHoldKept(db: DB, r: Request, w: nat)
    requires r.Complete? || r.Fail?
    ensures HoldKept(db, Apply(db, r), w)
  {
    hide Apply;
    CloseShape(db, r);
  }

  lemma BeatHoldKept(db: DB, r: Request, w: nat)
    requires r.Heartbeat?
    ensures HoldKept(db, Apply(db, r), w)
  {
  }

  lemma RestHoldKept(db: DB, r: Request, w: nat)
    requires r.Tick? || r.Register? || r.MarkStale? || r.CreateJob? || r.Dismiss? || r.DismissAll?
          || r.DeleteJob? || r.DeleteItems? || r.SweepJob?
    ensures HoldKept(db, Apply(db, r), w)
  {
    hide Apply;
    RestShape(db, r);
  }

  // ---- Agents agree with the chunks they hold ----------------------------------------------------

  /** If the agent still holds the chunk it works on, it stands exactly at the chunk's checkpoint. */
  ghost predicate AttachedTo(db: DB, w: nat, a: Agent) {
    a.Working? ==>
      && a.chunk < db.nextChunk
      && (a.chunk in db.chunks && db.chunks[a.chunk].holder == Some(w) ==>
            a.cur == db.chunks[a.chunk].next && a.end == db.chunks[a.chunk].hi)
  }

  ghost predicate Attached(s: Sys) {
    forall w :: w in s.agents ==> AttachedTo(s.db, w, s.agents[w])
  }

  ghost predicate Honest(s: Sys) {
    Orderly(s.db) && Attached(s)
  }

  lemma HolderOf(db: DB, w: nat, c: nat)
    requires Safe(db) && c in db.chunks
    ensures Holds(db, w, c) <==> db.chunks[c].holder == Some(w)
  {
    HoldersStand(db);
  }

  /** Whatever reaches the coordinator in an honest play is an honest request. */
  lemma MovesAreHonest(s: Sys, m: Move)
    requires Honest(s) && Enabled(s, m) && Arrives(s, m).Some?
    ensures HonestRequest(s.db, Arrives(s, m).value)
  {
    if m.Send? || m.Finish? {
      var w := m.worker;
      var a := s.AgentOf(w);
      assert AttachedTo(s.db, w, a);
      if a.chunk in s.db.chunks {
        HolderOf(s.db, w, a.chunk);
        assert ShapedChunk(s.db.chunks[a.chunk]);
      }
    }
  }

  lemma AttachedStays(db: DB, after: DB, w: nat, a: Agent)
    requires AttachedTo(db, w, a) && HoldKept(db, after, w)
    ensures AttachedTo(after, w, a)
  {
  }

  lemma AskAttached(s: Sys, m: Move)
    requires m.Ask? && Enabled(s, m) && Linked(After(s, m))
    ensures AttachedTo(After(s, m), m.worker, AgentAfter(s, m))
  {
    if m.fate.Answered? && m.worker in s.db.workers {
      assert After(s, m) == Lease(s.db, m.worker, m.lease).0;
    }
  }

  lemma SendAttached(s: Sys, m: Move)
    requires Honest(s) && m.Send? && Enabled(s, m)
    ensures AttachedTo(After(s, m), m.worker, AgentAfter(s, m))
  {
    hide Orderly;
    var w := m.worker;
    var a := s.AgentOf(w);
    assert AttachedTo(s.db, w, a);
    var next := BatchEnd(a.cur, m.batch, a.end);
    if AgentAfter(s, m).Working? {
      var after := Progress(s.db, w, a.chunk, next, m.results).0;
      assert After(s, m) == after;
      assert Holds(s.db, w, a.chunk);
      assert after.chunks[a.chunk] == Advanced(s.db, s.db.chunks[a.chunk], next);
    }
  }

  /** The moving agent agrees with its chunk after its own move. */
  lemma MoverAttached(s: Sys, m: Move)
    requires Honest(s) && Enabled(s, m) && !m.Serve? && Orderly(After(s, m))
    ensures AttachedTo(After(s, m), m.worker, AgentAfter(s, m))
  {
    if m.Send? {
      SendAttached(s, m);
    } else if m.Ask? {
      AskAttached(s, m);
    }
  }

  lemma NextIsHonest(s: Sys, m: Move)
    requires Honest(s)
    ensures Honest(Next(s, m))
  {
    hide HonestRequest, AttachedTo, HoldKept, Apply, AgentAfter, Linked, Coherent, UniqueRanges, Shaped, Begun,
         Covered, Exclusive, Unsettled, Tiled, Concluded, Within;
    if Enabled(s, m) {
      var after := After(s, m);
      if Arrives(s, m).Some? {
        var r := Arrives(s, m).value;
        MovesAreHonest(s, m);
        ApplyKeeps(s.db, r);
        forall w | w in s.agents && (m.Serve? || w != m.worker) ensures AttachedTo(after, w, s.agents[w]) {
          ApplyHoldKept(s.db, r, w);
          AttachedStays(s.db, after, w, s.agents[w]);
        }
      }
      if !m.Serve? { MoverAttached(s, m); }
    }
  }

  lemma {:induction false} PlayStaysHonest(s: Sys, ms: seq<Move>)
    requires Honest(s)
    ensures Honest(Play(s, ms))
  {
    hide Honest, Next;
    if ms != [] {
      PlayStaysHonest(s, ms[..|ms| - 1]);
      NextIsHonest(Play(s, ms[..|ms| - 1]), ms[|ms| - 1]);
    }
  }

  lemma StartIsHonest()
    ensures Honest(START)
  {
    assert Safe(EMPTY);
    forall j, x ensures !Reported(EMPTY.log, j, x) {}
  }

  /** Every state an honest play reaches is orderly. */
  lemma {:induction false} EveryPlayIsHonest(ms: seq<Move>)
    ensures Honest(Play(START, ms))
  {
    StartIsHonest();
    PlayStaysHonest(START, ms);
  }

  // ---- The main results --------------------------------------------------------------------------

  /** Completion is sound: in every play, a job that is marked completed is not open-ended, and the
      identifiers contained in accepted reports are exactly those it had to process. */
  lemma {:induction false} CompletionIsSound(ms: seq<Move>, j: nat)
    ensures var db := Play(START, ms).db;
            j in db.jobs && db.jobs[j].state.Completed? ==>
              !OpenEndedJob(db.jobs[j]) && forall x :: Universe(db.jobs[j], x) <==> Reported(db.log, j, x)
  {
    EveryPlayIsHonest(ms);
    var db := Play(START, ms).db;
    if j in db.jobs { assert ConcludedJob(db, j); }
  }

  /** Accepted work tiles each chunk: the identifiers recorded since the chunk was cut or re-queued are
      its first identifier up to its checkpoint, each once, in order. */
  lemma {:induction false} WorkTilesChunks(ms: seq<Move>, c: nat)
    ensures var db := Play(START, ms).db;
            c in db.chunks ==>
              && db.chunks[c].lo <= db.chunks[c].next <= db.chunks[c].hi + 1
              && Recorded(db.log, c) == Consecutive(db.chunks[c].lo, db.chunks[c].next)
  {
    EveryPlayIsHonest(ms);
    var db := Play(START, ms).db;
    if c in db.chunks { assert ShapedChunk(db.chunks[c]); }
  }

  /** The pieces cut on demand follow one another from the job's first identifier to its cursor. */
  lemma {:induction false} CutsTileTheRange(ms: seq<Move>, j: nat)
    ensures var db := Play(START, ms).db;
            j in db.jobs && Lazy(db.jobs[j]) && !db.jobs[j].state.Created? ==>
              CutUpTo(db.log, j, FirstId(db.jobs[j])) == db.jobs[j].cursor
  {
    EveryPlayIsHonest(ms);
    var db := Play(START, ms).db;
    if j in db.jobs { assert BegunJob(db, j); }
  }

  /** In every play the identifiers in hand of a job with separate input are in hand once, and have no
      result but a re-queued one: what succeeded is never handed out again. */
  lemma {:induction false} NothingHandedOutTwice(ms: seq<Move>, c: nat, x: int)
    ensures var db := Play(START, ms).db;
            c in db.chunks && db.chunks[c].job in db.jobs && SeparateAt(db.jobs[db.chunks[c].job], x) && db.chunks[c].Todo(x) ==>
              && (forall d :: d in db.chunks && d != c && db.chunks[d].job == db.chunks[c].job ==> !db.chunks[d].Todo(x))
              && Unresolved(db.tables, Key(db.chunks[c].job, x))
  {
    EveryPlayIsHonest(ms);
  }
}
