/** Nothing ever gets stuck: from every state of every play, one healthy server can finish any running job that
    has an end, whatever crashed, expired or was handed out before. */
module Finishing {
  import opened Rows
  import opened Catalogue
  import opened Database
  import opened SchedulerSpec
  import opened Requests
  import opened LeaseSafety
  import opened Ledger
  import opened Agents
  import opened Protocol
  import opened Fencing
  import opened Permanence
  import opened Measure

  // ---- One server, one job -----------------------------------------------------------------------

  predicate Healthy(db: DB, w: nat) {
    w in db.workers && !db.workers[w].state.Draining? && HasSpace(db.workers[w])
  }

  /** The job runs, has an end, and the healthy server may work on it. */
  predicate Fit(db: DB, w: nat, j: nat) {
    && Healthy(db, w) && JobRunning(db, j) && Eligible(db.jobs[j], w)
    && (db.jobs[j].cursor.Some? ==> db.jobs[j].hi.Some?)
  }

  ghost predicate OnlyRuns(db: DB, j: nat) {
    forall i :: i in db.jobs && db.jobs[i].state.Running? ==> i == j
  }

  /** Nothing is leased but what has expired. */
  ghost predicate LeasesOver(db: DB) {
    forall c :: c in db.chunks && db.chunks[c].status.Leased? ==> Expired(db.chunks[c], db.now)
  }

  ghost predicate NoLeases(db: DB) {
    forall c :: c in db.chunks ==> !db.chunks[c].status.Leased?
  }

  ghost function OpenOf(db: DB, j: nat): set<nat> {
    set c | c in db.chunks && db.chunks[c].job == j && db.chunks[c].Open()
  }

  /** What is left to do: uncut identifiers and open chunks. */
  ghost function Left(db: DB, j: nat): int {
    UncutCount(db, j) + |OpenOf(db, j)|
  }

  /** The server holds `c`, the only leased chunk. */
  ghost predicate Busy(db: DB, w: nat, j: nat, c: nat) {
    && Fit(db, w, j) && OnlyRuns(db, j)
    && Holds(db, w, c) && db.chunks[c].job == j
    && (forall d :: d in db.chunks && d != c ==> !db.chunks[d].status.Leased?)
  }

  // ---- What a round does to the database ---------------------------------------------------------

  lemma ReclaimFrees(db: DB, w: nat, j: nat)
    requires Fit(db, w, j) && OnlyRuns(db, j) && LeasesOver(db)
    ensures var d := ReclaimExpired(db);
            Fit(d, w, j) && OnlyRuns(d, j) && NoLeases(d) && Left(d, j) == Left(db, j)
  {
    assert OpenOf(ReclaimExpired(db), j) == OpenOf(db, j);
  }

  lemma GrantBusies(d: DB, c: nat, w: nat, lease: int, j: nat)
    requires Fit(d, w, j) && OnlyRuns(d, j) && NoLeases(d) && c in Takeable(d, w)
    ensures Busy(Grant(d, c, w, lease), w, j, c) && Left(Grant(d, c, w, lease), j) == Left(d, j)
  {
    assert OpenOf(Grant(d, c, w, lease), j) == OpenOf(d, j);
  }

  lemma CutLeavesAsMuch(d: DB, j: nat)
    requires j in d.jobs && HasUncut(d.jobs[j]) && d.jobs[j].size >= 1 && d.jobs[j].hi.Some? && d.nextChunk !in d.chunks
    ensures Left(CutPiece(d, j), j) <= Left(d, j)
  {
    hide OpenOf, UncutCount;
    CutOpens(d, j);
    CutTakes(d, j);
  }

  lemma OpensOne(d: DB, e: DB, j: nat, c: nat)
    requires c !in d.chunks && c in e.chunks && e.chunks == d.chunks[c := e.chunks[c]]
    requires e.chunks[c].job == j && e.chunks[c].Open()
    ensures |OpenOf(e, j)| == |OpenOf(d, j)| + 1
  {
    assert OpenOf(e, j) == OpenOf(d, j) + {c};
  }

  lemma CutOpens(d: DB, j: nat)
    requires j in d.jobs && HasUncut(d.jobs[j]) && d.nextChunk !in d.chunks
    ensures |OpenOf(CutPiece(d, j), j)| == |OpenOf(d, j)| + 1
  {
    hide OpenOf;
    OpensOne(d, CutPiece(d, j), j, d.nextChunk);
  }

  lemma CutTakes(d: DB, j: nat)
    requires j in d.jobs && HasUncut(d.jobs[j]) && d.jobs[j].size >= 1 && d.jobs[j].hi.Some?
    ensures UncutCount(CutPiece(d, j), j) < UncutCount(d, j)
  {
  }

  lemma CutReadies(d: DB, w: nat, j: nat)
    requires Fit(d, w, j) && OnlyRuns(d, j) && NoLeases(d) && HasUncut(d.jobs[j]) && d.jobs[j].size >= 1
    requires d.nextChunk !in d.chunks
    ensures var e := CutPiece(d, j);
            && Fit(e, w, j) && OnlyRuns(e, j) && NoLeases(e) && d.nextChunk in Takeable(e, w)
            && Left(e, j) <= Left(d, j)
  {
    hide Left, HasSpace;
    CutLeavesAsMuch(d, j);
  }

  /** Asking gives a chunk of the job, or tells that there is none. */
  lemma AskingBusies(db: DB, w: nat, lease: int, j: nat)
    requires Orderly(db) && Fit(db, w, j) && OnlyRuns(db, j) && LeasesOver(db)
    ensures var (after, reply) := Lease(db, w, lease);
            && !reply.Conflict?
            && (reply.Given? ==> Busy(after, w, j, reply.chunk) && Left(after, j) <= Left(db, j))
  {
    hide Orderly, Clash, CutPiece, Grant, Busy, Fit, OnlyRuns, LeasesOver, NoLeases, Left, ReclaimExpired;
    var d := ReclaimExpired(db);
    FitMeans(db, w, j);
    LeaseNeverConflicts(db, w, lease);
    ReclaimFrees(db, w, j);
    FitMeans(d, w, j);
    ReclaimIdsFresh(db);
    if HasSpace(d.workers[w]) {
      if Takeable(d, w) != {} {
        GrantBusies(d, Least(Takeable(d, w)), w, lease, j);
      } else if Cuttable(d, w) != {} {
        var i := Least(Cuttable(d, w));
        OnlyOne(d, i, j);
        SizesPositive(db, j);
        CutReadies(d, w, j);
        GrantBusies(CutPiece(d, j), d.nextChunk, w, lease, j);
      }
    }
  }

  lemma FitMeans(db: DB, w: nat, j: nat)
    requires Fit(db, w, j)
    ensures w in db.workers && !db.workers[w].state.Draining? && HasSpace(db.workers[w]) && j in db.jobs
  {
  }

  lemma OnlyOne(db: DB, i: nat, j: nat)
    requires OnlyRuns(db, j) && i in db.jobs && db.jobs[i].state.Running?
    ensures i == j
  {
  }

  lemma ReclaimIdsFresh(db: DB)
    requires Orderly(db)
    ensures ReclaimExpired(db).nextChunk !in ReclaimExpired(db).chunks && ReclaimExpired(db).jobs == db.jobs
    ensures ReclaimExpired(db).workers == db.workers
  {
    hide OneDownload, Coherent, UniqueRanges;
  }

  lemma SizesPositive(db: DB, j: nat)
    requires Orderly(db) && j in db.jobs
    ensures db.jobs[j].size >= 1
  {
    assert BegunJob(db, j);
  }

  /** Reporting the rest of the held chunk leaves the server holding it. */
  lemma ReportingKeepsBusy(db: DB, w: nat, j: nat, c: nat, next: int, rs: seq<Result>)
    requires Busy(db, w, j, c) && next >= db.chunks[c].next
    ensures var (after, reply) := Progress(db, w, c, next, rs);
            && reply == Stored(true) && Busy(after, w, j, c) && after.chunks[c].next == next
            && after.chunks[c].hi == db.chunks[c].hi && Left(after, j) == Left(db, j)
  {
    hide RecordAll;
    assert OpenOf(Progress(db, w, c, next, rs).0, j) == OpenOf(db, j);
  }

  /** Finishing the chunk finishes the job, or leaves less to do. */
  lemma FinishingLeavesLess(db: DB, w: nat, j: nat, c: nat)
    requires Busy(db, w, j, c)
    ensures var after := Apply(db, Complete(w, c, ChunkStatus.Completed));
            && j in after.jobs
            && (after.jobs[j].state.Completed?
                || (Fit(after, w, j) && OnlyRuns(after, j) && LeasesOver(after) && Left(after, j) < Left(db, j)))
  {
    hide Finishable;
    var d := CompleteChunk(db, w, c, ChunkStatus.Completed).0;
    assert OpenOf(d, j) == OpenOf(db, j) - {c};
    assert c in OpenOf(db, j);
  }

  // ---- What a round does to the whole system -----------------------------------------------------

  /** The server is idle, its job is the only one that runs, and all other leases are over. */
  ghost predicate Ready(s: Sys, w: nat, j: nat) {
    && Honest(s) && LinksHaveRows(s.db) && s.AgentOf(w).Idle?
    && Fit(s.db, w, j) && OnlyRuns(s.db, j) && LeasesOver(s.db)
  }

  const LEASE := DEFAULT_LEASE_SECONDS

  lemma AskGives(s: Sys, w: nat)
    requires s.AgentOf(w).Idle? && w in s.db.workers && Lease(s.db, w, LEASE).1.Given?
    requires Lease(s.db, w, LEASE).1.chunk in Lease(s.db, w, LEASE).0.chunks
    ensures var (after, reply) := Lease(s.db, w, LEASE);
            Next(s, Ask(w, LEASE, Answered))
            == Sys(after, s.agents[w := Working(reply.chunk, after.chunks[reply.chunk].next, after.chunks[reply.chunk].hi)])
  {
    hide Lease;
  }

  lemma AskGivesNone(s: Sys, w: nat)
    requires s.AgentOf(w).Idle? && w in s.db.workers && Lease(s.db, w, LEASE).1.NoWork?
    ensures Next(s, Ask(w, LEASE, Answered)) == Sys(Lease(s.db, w, LEASE).0, s.agents[w := Idle])
  {
    hide Lease;
  }

  /** One report for everything the agent has left. */
  function Rest(w: nat, cur: int, end: int): Move
    requires cur <= end
  {
    Send(w, end - cur + 1, Uniform(cur, end + 1, ItemStatus.Completed), Answered)
  }

  lemma SendReports(s: Sys, w: nat, c: nat, cur: int, end: int)
    requires s.AgentOf(w) == Working(c, cur, end) && cur <= end && w in s.db.workers
    requires Progress(s.db, w, c, end + 1, Uniform(cur, end + 1, ItemStatus.Completed)).1 == Stored(true)
    ensures Next(s, Rest(w, cur, end))
            == Sys(Progress(s.db, w, c, end + 1, Uniform(cur, end + 1, ItemStatus.Completed)).0,
                   s.agents[w := Working(c, end + 1, end)])
  {
    hide Progress;
    assert BatchEnd(cur, end - cur + 1, end) == end + 1;
    assert IsBatch(Uniform(cur, end + 1, ItemStatus.Completed), cur, end + 1);
  }

  lemma FinishCompletes(s: Sys, w: nat, c: nat, cur: int, end: int)
    requires s.AgentOf(w) == Working(c, cur, end) && cur > end
    ensures Next(s, Finish(w, Answered))
            == Sys(Apply(s.db, Complete(w, c, ChunkStatus.Completed)), s.agents[w := Idle])
  {
    hide Apply;
  }

  /** Working off the chunk just taken: one report if anything is left of it, and its completion. */
  lemma WorksOff(s: Sys, w: nat, j: nat, c: nat) returns (ms: seq<Move>)
    requires Busy(s.db, w, j, c) && s.AgentOf(w) == Working(c, s.db.chunks[c].next, s.db.chunks[c].hi)
    ensures var after := Play(s, ms);
            && after.AgentOf(w).Idle? && j in after.db.jobs
            && (after.db.jobs[j].state.Completed?
                || (Fit(after.db, w, j) && OnlyRuns(after.db, j) && LeasesOver(after.db) && Left(after.db, j) < Left(s.db, j)))
  {
    hide Busy, Progress, Apply, Fit, OnlyRuns, LeasesOver, Left, Next;
    BusyMeans(s.db, w, j, c);
    var cur, end := s.db.chunks[c].next, s.db.chunks[c].hi;
    if cur <= end {
      var rs := Uniform(cur, end + 1, ItemStatus.Completed);
      var d := Progress(s.db, w, c, end + 1, rs).0;
      ReportingKeepsBusy(s.db, w, j, c, end + 1, rs);
      SendReports(s, w, c, cur, end);
      FinishCompletes(Next(s, Rest(w, cur, end)), w, c, end + 1, end);
      FinishingLeavesLess(d, w, j, c);
      ms := [Rest(w, cur, end), Finish(w, Answered)];
      PlayTwo(s, Rest(w, cur, end), Finish(w, Answered));
    } else {
      FinishCompletes(s, w, c, cur, end);
      FinishingLeavesLess(s.db, w, j, c);
      ms := [Finish(w, Answered)];
      PlayOne(s, Finish(w, Answered));
    }
  }

  lemma BusyMeans(db: DB, w: nat, j: nat, c: nat)
    requires Busy(db, w, j, c)
    ensures w in db.workers && c in db.chunks
  {
  }

  lemma {:induction false} PlayOne(s: Sys, m: Move)
    ensures Play(s, [m]) == Next(s, m)
  {
    PlayOn(s, [], m);
    assert [] + [m] == [m];
  }

  lemma {:induction false} PlayTwo(s: Sys, a: Move, b: Move)
    ensures Play(s, [a, b]) == Next(Next(s, a), b)
  {
    PlayOne(s, a);
    PlayOn(s, [a], b);
    assert [a] + [b] == [a, b];
  }

  lemma {:induction false} PlayKeepsLinks(s: Sys, ms: seq<Move>)
    requires Honest(s) && LinksHaveRows(s.db)
    ensures Honest(Play(s, ms)) && LinksHaveRows(Play(s, ms).db)
  {
    hide Honest, LinksHaveRows, Apply, AgentAfter;
    if ms != [] {
      var n := |ms| - 1;
      var before := Play(s, ms[..n]);
      PlayKeepsLinks(s, ms[..n]);
      NextIsHonest(before, ms[n]);
      HonestIsSafe(before);
      if Enabled(before, ms[n]) && Arrives(before, ms[n]).Some? {
        ApplyKeepsLinks(before.db, Arrives(before, ms[n]).value);
      }
    }
  }

  lemma HonestIsSafe(s: Sys)
    requires Honest(s)
    ensures Orderly(s.db) && Safe(s.db) && Coherent(s.db)
  {
  }

  // ---- When there is nothing left to take --------------------------------------------------------

  lemma HasAnEnd(db: DB, w: nat, j: nat)
    requires Orderly(db) && LinksHaveRows(db) && Fit(db, w, j) && db.jobs[j].cursor.None?
    ensures HasChunk(db, j)
  {
    assert BegunJob(db, j);
    assert CutInAdvance(db.jobs[j]);
  }

  lemma {:induction false} SweepFinishes(s: Sys, w: nat, j: nat)
    requires Ready(s, w, j) && Lease(s.db, w, LEASE).1.NoWork?
    ensures var after := Play(s, [Ask(w, LEASE, Answered), Serve(SweepJob(j))]);
            j in after.db.jobs && after.db.jobs[j].state.Completed?
  {
    hide Honest, Orderly, Lease, LinksHaveRows, Fit, OnlyRuns, LeasesOver, MaybeCompleteJob, HasChunk, Safe, Coherent;
    HonestIsSafe(s);
    FitMeans(s.db, w, j);
    AskGivesNone(s, w);
    PlayTwo(s, Ask(w, LEASE, Answered), Serve(SweepJob(j)));
    NothingLeft(s.db, w, j);
  }

  lemma NothingLeft(db: DB, w: nat, j: nat)
    requires Orderly(db) && LinksHaveRows(db) && Fit(db, w, j) && OnlyRuns(db, j) && LeasesOver(db)
    requires Lease(db, w, LEASE).1.NoWork?
    ensures var after := MaybeCompleteJob(Lease(db, w, LEASE).0, j); j in after.jobs && after.jobs[j].state.Completed?
  {
    hide Orderly, LinksHaveRows, OnlyRuns, Left, HasChunk;
    var d := ReclaimExpired(db);
    OrderlyIsCoherent(db);
    ReclaimFrees(db, w, j);
    if db.jobs[j].cursor.None? { HasAnEnd(db, w, j); }
    NoDeadlock(db, w, LEASE, j);
    assert Lease(db, w, LEASE).0 == d;
    assert NothingLeased(d, j);
  }

  lemma OrderlyIsCoherent(db: DB)
    requires Orderly(db)
    ensures Coherent(db)
  {
  }

  // ---- Round after round -------------------------------------------------------------------------

  lemma Finishes(s: Sys, w: nat, j: nat) returns (ms: seq<Move>)
    requires Ready(s, w, j)
    ensures j in Play(s, ms).db.jobs && Play(s, ms).db.jobs[j].state.Completed?
    decreases Left(s.db, j)
  {
    hide Honest, Orderly, Lease, LinksHaveRows, Fit, OnlyRuns, LeasesOver, Left, Busy, Next;
    HonestIsSafe(s);
    FitMeans(s.db, w, j);
    AskingBusies(s.db, w, LEASE, j);
    var (d, reply) := Lease(s.db, w, LEASE);
    if reply.NoWork? {
      SweepFinishes(s, w, j);
      ms := [Ask(w, LEASE, Answered), Serve(SweepJob(j))];
    } else {
      var c := reply.chunk;
      BusyMeans(d, w, j, c);
      AskGives(s, w);
      var asked := Next(s, Ask(w, LEASE, Answered));
      var work := WorksOff(asked, w, j, c);
      ms := [Ask(w, LEASE, Answered)] + work;
      PlayOne(s, Ask(w, LEASE, Answered));
      PlayJoins(s, [Ask(w, LEASE, Answered)], work);
      var after := Play(s, ms);
      if !after.db.jobs[j].state.Completed? {
        PlayKeepsLinks(s, ms);
        LeftIsNatural(after.db, j);
        var more := Finishes(after, w, j);
        PlayJoins(s, ms, more);
        ms := ms + more;
      }
    }
  }

  lemma LeftIsNatural(db: DB, j: nat)
    ensures Left(db, j) >= 0
  {
  }

  // ---- Getting ready -----------------------------------------------------------------------------

  lemma EnoughTime(chunks: map<nat, Chunk>, ids: set<nat>, now: int) returns (t: nat)
    requires forall c :: c in ids ==> c in chunks
    ensures forall c :: c in ids && chunks[c].expires.Some? ==> chunks[c].expires.value < now + t
    decreases |ids|
  {
    t := 0;
    if ids != {} {
      var c :| c in ids;
      t := EnoughTime(chunks, ids - {c}, now);
      if chunks[c].expires.Some? && chunks[c].expires.value >= now + t {
        t := chunks[c].expires.value + 1 - now;
      }
    }
  }

  ghost function Others(db: DB, j: nat): set<nat> {
    set i | i in db.jobs && db.jobs[i].state.Running? && i != j
  }

  /** The user pauses the other running jobs. */
  lemma PausesOthers(s: Sys, w: nat, j: nat) returns (ms: seq<Move>)
    requires Fit(s.db, w, j)
    ensures Fit(Play(s, ms).db, w, j) && OnlyRuns(Play(s, ms).db, j)
    decreases |Others(s.db, j)|
  {
    ms := [];
    if Others(s.db, j) == {} {
      assert forall i :: i in s.db.jobs && s.db.jobs[i].state.Running? && i != j ==> i in Others(s.db, j);
    } else {
      var i :| i in Others(s.db, j);
      var m := Serve(Control(i, Pause));
      var after := Next(s, m);
      PauseIs(s, i);
      assert Others(after.db, j) == Others(s.db, j) - {i};
      var more := PausesOthers(after, w, j);
      ms := [m] + more;
      PlayOne(s, m);
      PlayJoins(s, [m], more);
    }
  }

  lemma PauseIs(s: Sys, i: nat)
    requires i in s.db.jobs && s.db.jobs[i].state.Running?
    ensures Next(s, Serve(Control(i, Pause)))
            == Sys(WithJob(s.db, i, s.db.jobs[i].(state := JobState.Paused)), s.agents)
  {
    hide Initialize;
  }

  /** Its agent starts afresh and time passes until every lease is over. */
  lemma GetsReady(s: Sys, w: nat, j: nat) returns (ms: seq<Move>)
    requires Fit(s.db, w, j) && OnlyRuns(s.db, j) && Coherent(s.db)
    ensures var after := Play(s, ms);
            after.AgentOf(w).Idle? && Fit(after.db, w, j) && OnlyRuns(after.db, j) && LeasesOver(after.db)
  {
    var t := EnoughTime(s.db.chunks, s.db.chunks.Keys, s.db.now);
    ms := [Crash(w), Serve(Tick(t))];
    PlayTwo(s, Crash(w), Serve(Tick(t)));
    var db := s.db.(now := s.db.now + t);
    assert Next(Next(s, Crash(w)), Serve(Tick(t))) == Sys(db, s.agents[w := Idle]);
    forall c | c in db.chunks && db.chunks[c].status.Leased? ensures Expired(db.chunks[c], db.now) {
      assert CoherentChunk(s.db, c);
    }
  }

  lemma BoundedHasEnd(db: DB, j: nat)
    requires Orderly(db) && JobRunning(db, j) && !OpenEndedJob(db.jobs[j])
    ensures db.jobs[j].cursor.Some? ==> db.jobs[j].hi.Some?
  {
    assert BegunJob(db, j);
  }

  /** From every state of every play, a healthy server that may work on a running job with an end can still
      finish it: there is a continuation after which the job is completed. */
  lemma CanAlwaysFinish(before: seq<Move>, w: nat, j: nat) returns (more: seq<Move>)
    requires var db := Play(START, before).db;
             Healthy(db, w) && JobRunning(db, j) && Eligible(db.jobs[j], w) && !OpenEndedJob(db.jobs[j])
    ensures var end := Play(START, before + more).db; j in end.jobs && end.jobs[j].state.Completed?
  {
    hide Honest, Orderly, LinksHaveRows, OnlyRuns, LeasesOver, Healthy, OpenEndedJob, Safe, Coherent, Play;
    var s := Play(START, before);
    EveryPlayIsHonest(before);
    PlayIsRun(START, before);
    EveryRunKeepsLinks(Arrivals(START, before));
    HonestIsSafe(s);
    BoundedHasEnd(s.db, j);
    hide Fit;
    FitIs(s.db, w, j);
    var pauses := PausesOthers(s, w, j);
    var paused := Play(s, pauses);
    PlayKeepsLinks(s, pauses);
    HonestIsSafe(paused);
    var waits := GetsReady(paused, w, j);
    var ready := Play(paused, waits);
    PlayKeepsLinks(paused, waits);
    var work := Finishes(ready, w, j);
    more := pauses + waits + work;
    PlayJoins(s, pauses, waits);
    PlayJoins(s, pauses + waits, work);
    PlayJoins(START, before, more);
  }

  lemma FitIs(db: DB, w: nat, j: nat)
    requires Healthy(db, w) && JobRunning(db, j) && Eligible(db.jobs[j], w)
    requires db.jobs[j].cursor.Some? ==> db.jobs[j].hi.Some?
    ensures Fit(db, w, j)
  {
  }
}
