/** Why a job's targets must not overlap: with overlapping ones a later report can overwrite a completed
    result, and disjointness is exactly what excludes it. */
module Overlap {
  import opened Rows
  import opened Catalogue
  import opened Database
  import opened Chunking
  import opened SchedulerSpec
  import opened DrainSpec
  import opened Requests
  import opened Steps
  import opened Agents
  import opened Protocol
  import opened Videos

  // ---- One server works through the chunks of one job in order ------------------------------------

  /** Chunks below `n` are completed, those above are as they were cut. */
  ghost predicate Lined(db: DB, rows: seq<Chunk>, n: nat) {
    && (forall c: nat :: c in db.chunks <==> c < |rows|)
    && (forall c :: c in db.chunks && c < n ==> SameRange(db.chunks[c], rows[c]) && db.chunks[c].status.Completed?)
    && (forall c :: c in db.chunks && c > n ==> db.chunks[c] == rows[c])
  }

  /** Server 0 is online, and job 0, over these targets, is the only job and runs. */
  ghost predicate Manned(db: DB, targets: seq<Target>) {
    && 0 in db.workers && db.workers[0].state.Online? && db.workers[0].free.None?
    && (forall j :: j in db.jobs <==> j == 0)
    && db.jobs[0].state.Running? && db.jobs[0].owner.None? && db.jobs[0].cursor.None?
    && db.jobs[0].targets == targets
  }

  /** Everything in the first `n` chunks has succeeded. */
  ghost predicate Succeeded(db: DB, rows: seq<Chunk>, n: nat) {
    forall c, x :: 0 <= c < n && c < |rows| && rows[c].Spans(x) ==>
      Key(0, x) in db.tables.items && db.tables.items[Key(0, x)].status.Completed?
  }

  ghost predicate Ready(s: Sys, targets: seq<Target>, rows: seq<Chunk>, n: nat) {
    && AllFresh(rows, 0) && n < |rows| && Manned(s.db, targets) && Lined(s.db, rows, n) && Succeeded(s.db, rows, n)
    && s.AgentOf(0).Idle? && s.db.chunks[n] == rows[n]
  }

  ghost predicate Taken(s: Sys, targets: seq<Target>, rows: seq<Chunk>, n: nat) {
    && AllFresh(rows, 0) && n < |rows| && Manned(s.db, targets) && Lined(s.db, rows, n) && Succeeded(s.db, rows, n)
    && s.AgentOf(0) == Working(n, rows[n].lo, rows[n].hi)
    && SameRange(s.db.chunks[n], rows[n]) && s.db.chunks[n].next == rows[n].lo && Holds(s.db, 0, n)
  }

  ghost predicate Sent(s: Sys, targets: seq<Target>, rows: seq<Chunk>, n: nat) {
    && AllFresh(rows, 0) && n < |rows| && Manned(s.db, targets) && Lined(s.db, rows, n) && Succeeded(s.db, rows, n + 1)
    && s.AgentOf(0) == Working(n, rows[n].hi + 1, rows[n].hi)
    && SameRange(s.db.chunks[n], rows[n]) && Holds(s.db, 0, n)
  }

  const ASK := Ask(0, DEFAULT_LEASE_SECONDS, Answered)
  const FINISH := Finish(0, Answered)

  /** One report for the whole chunk. */
  function Whole(row: Chunk, status: ItemStatus): Move
    requires row.lo <= row.hi
  {
    Send(0, row.hi - row.lo + 1, Uniform(row.lo, row.hi + 1, status), Answered)
  }

  lemma NothingToReclaim(db: DB)
    requires forall c :: c in db.chunks ==> !db.chunks[c].status.Leased?
    ensures ReclaimExpired(db) == db
  {
    assert ReclaimExpired(db).chunks == db.chunks;
  }

  lemma FirstTakeable(s: Sys, targets: seq<Target>, rows: seq<Chunk>, n: nat)
    requires Ready(s, targets, rows, n)
    ensures ReclaimExpired(s.db) == s.db
    ensures Takeable(s.db, 0) != {} && Least(Takeable(s.db, 0)) == n
  {
    var db := s.db;
    forall c | c in db.chunks ensures !db.chunks[c].status.Leased? {
      assert Fresh(rows[c], 0);
    }
    NothingToReclaim(db);
    assert Fresh(rows[n], 0);
    assert n in Takeable(db, 0);
  }

  /** What asking for a chunk does when nothing has expired and `n` is the first chunk to take. */
  lemma AskIs(s: Sys, n: nat)
    requires s.AgentOf(0).Idle? && 0 in s.db.workers && s.db.workers[0].state.Online? && s.db.workers[0].free.None?
    requires ReclaimExpired(s.db) == s.db && Takeable(s.db, 0) != {} && Least(Takeable(s.db, 0)) == n
    ensures n in s.db.chunks
    ensures Next(s, ASK) == Sys(Grant(s.db, n, 0, DEFAULT_LEASE_SECONDS),
                                s.agents[0 := Working(n, s.db.chunks[n].next, s.db.chunks[n].hi)])
  {
    assert n in Takeable(s.db, 0);
    assert Lease(s.db, 0, DEFAULT_LEASE_SECONDS) == (Grant(s.db, n, 0, DEFAULT_LEASE_SECONDS), Given(n));
  }

  lemma AskTakes(s: Sys, targets: seq<Target>, rows: seq<Chunk>, n: nat)
    requires Ready(s, targets, rows, n)
    ensures Taken(Next(s, ASK), targets, rows, n)
  {
    hide Next, ReclaimExpired, Takeable;
    FirstTakeable(s, targets, rows, n);
    AskIs(s, n);
    assert Fresh(rows[n], 0);
  }

  /** What sending one report for the rest of a held chunk does. */
  lemma SendIs(s: Sys, n: nat, row: Chunk, status: ItemStatus)
    requires row.lo <= row.hi && Conclusive(status)
    requires s.AgentOf(0) == Working(n, row.lo, row.hi) && 0 in s.db.workers && Holds(s.db, 0, n)
    requires JobRunning(s.db, s.db.chunks[n].job)
    ensures Enabled(s, Whole(row, status))
    ensures Next(s, Whole(row, status))
            == Sys(Progress(s.db, 0, n, row.hi + 1, Uniform(row.lo, row.hi + 1, status)).0,
                   s.agents[0 := Working(n, row.hi + 1, row.hi)])
  {
    hide RecordAll;
    var rs := Uniform(row.lo, row.hi + 1, status);
    assert BatchEnd(row.lo, row.hi - row.lo + 1, row.hi) == row.hi + 1;
    assert IsBatch(rs, row.lo, row.hi + 1);
    assert Progress(s.db, 0, n, row.hi + 1, rs).1 == Stored(true);
  }

  /** After reporting the whole chunk, its identifiers have the reported status and no other item changed. */
  lemma SendRecords(s: Sys, targets: seq<Target>, rows: seq<Chunk>, n: nat, status: ItemStatus)
    requires Taken(s, targets, rows, n) && Conclusive(status)
    ensures rows[n].lo <= rows[n].hi && Enabled(s, Whole(rows[n], status))
    ensures var after := Next(s, Whole(rows[n], status));
            && Manned(after.db, targets) && Lined(after.db, rows, n)
            && after.AgentOf(0) == Working(n, rows[n].hi + 1, rows[n].hi)
            && SameRange(after.db.chunks[n], rows[n]) && Holds(after.db, 0, n)
            && (forall x :: rows[n].Spans(x) ==>
                  Key(0, x) in after.db.tables.items && after.db.tables.items[Key(0, x)].status == status)
            && (forall k :: k in s.db.tables.items && !rows[n].Spans(k.id) ==>
                  k in after.db.tables.items && after.db.tables.items[k] == s.db.tables.items[k])
  {
    hide Next, Succeeded, RecordAll;
    assert Fresh(rows[n], 0);
    var row := rows[n];
    var rs := Uniform(row.lo, row.hi + 1, status);
    var who := ReporterOf(s.db, 0, 0);
    SendIs(s, n, row, status);
    RecordAllItems(s.db.tables, who, rs);
    forall x | row.Spans(x) ensures Mentions(rs, who, Key(0, x)) {
      assert who.KeyOf(rs[x - row.lo]) == Key(0, x);
    }
    assert Progress(s.db, 0, n, row.hi + 1, rs).0.chunks[n] == Advanced(s.db, s.db.chunks[n], row.hi + 1);
  }

  lemma SendSucceeds(s: Sys, targets: seq<Target>, rows: seq<Chunk>, n: nat)
    requires Taken(s, targets, rows, n)
    ensures rows[n].lo <= rows[n].hi && Sent(Next(s, Whole(rows[n], ItemStatus.Completed)), targets, rows, n)
  {
    SendRecords(s, targets, rows, n, ItemStatus.Completed);
    var after := Next(s, Whole(rows[n], ItemStatus.Completed));
    forall c, x | 0 <= c < n + 1 && c < |rows| && rows[c].Spans(x)
      ensures Key(0, x) in after.db.tables.items && after.db.tables.items[Key(0, x)].status.Completed?
    {
      if !rows[n].Spans(x) { assert Key(0, x).id == x; }
    }
  }

  /** What finishing a held chunk does while its job has another open one. */
  lemma FinishIs(s: Sys, n: nat)
    requires s.AgentOf(0).Working? && s.AgentOf(0).chunk == n && s.AgentOf(0).cur > s.AgentOf(0).end
    requires 0 in s.db.workers && Holds(s.db, 0, n)
    requires HasOpenChunk(CompleteChunk(s.db, 0, n, ChunkStatus.Completed).0, s.db.chunks[n].job)
    ensures Next(s, FINISH) == Sys(CompleteChunk(s.db, 0, n, ChunkStatus.Completed).0, s.agents[0 := Idle])
  {
    hide HasOpenChunk, HasChunk;
  }

  lemma FinishAdvances(s: Sys, targets: seq<Target>, rows: seq<Chunk>, n: nat)
    requires Sent(s, targets, rows, n) && n + 1 < |rows|
    ensures Ready(Next(s, FINISH), targets, rows, n + 1)
  {
    hide Next;
    var d := CompleteChunk(s.db, 0, n, ChunkStatus.Completed).0;
    assert Fresh(rows[n + 1], 0);
    assert n + 1 in d.chunks && d.chunks[n + 1] == rows[n + 1];
    assert HasOpenChunk(d, 0);
    FinishIs(s, n);
  }

  // ---- The play ----------------------------------------------------------------------------------

  /** How one server works through the first `n` chunks. */
  ghost function Moves(rows: seq<Chunk>, n: nat): seq<Move>
    requires n <= |rows| && AllFresh(rows, 0)
  {
    if n == 0 then []
    else
      assert Fresh(rows[n - 1], 0);
      Moves(rows, n - 1) + [ASK, Whole(rows[n - 1], ItemStatus.Completed), FINISH]
  }

  lemma {:induction false} WorksOne(s: Sys, targets: seq<Target>, rows: seq<Chunk>, n: nat)
    requires Ready(s, targets, rows, n) && n + 1 < |rows|
    ensures rows[n].lo <= rows[n].hi
    ensures Ready(Play(s, [ASK, Whole(rows[n], ItemStatus.Completed), FINISH]), targets, rows, n + 1)
  {
    assert Fresh(rows[n], 0);
    var whole := Whole(rows[n], ItemStatus.Completed);
    AskTakes(s, targets, rows, n);
    SendSucceeds(Next(s, ASK), targets, rows, n);
    FinishAdvances(Next(Next(s, ASK), whole), targets, rows, n);
    PlayThree(s, ASK, whole, FINISH);
  }

  lemma {:induction false} WorksThrough(s: Sys, targets: seq<Target>, rows: seq<Chunk>, n: nat)
    requires AllFresh(rows, 0) && n < |rows| && Ready(s, targets, rows, 0)
    ensures Ready(Play(s, Moves(rows, n)), targets, rows, n)
  {
    if n > 0 {
      WorksThrough(s, targets, rows, n - 1);
      WorksOne(Play(s, Moves(rows, n - 1)), targets, rows, n - 1);
      PlayJoins(s, Moves(rows, n - 1), [ASK, Whole(rows[n - 1], ItemStatus.Completed), FINISH]);
    }
  }

  /** The name of the i-th server. */
  function ServerName(i: nat): string {
    seq(i + 1, _ => 'a')
  }

  function Registrations(n: nat): seq<Move> {
    if n == 0 then [] else Registrations(n - 1) + [Serve(Register(ServerName(n - 1)))]
  }

  /** `n` servers register, and a job over the targets is created and started. */
  function Opening(targets: seq<Target>, n: nat): seq<Move> {
    Registrations(n) + [Serve(CreateJob(NewJob("kinescope", targets))), Serve(Control(0, Start))]
  }

  /** The ids of the first `n` servers. */
  function ServerIds(n: nat): (s: set<nat>)
    ensures |s| == n
    ensures forall i: nat :: i < n <==> i in s
  {
    if n == 0 then {}
    else
      var before := ServerIds(n - 1);
      assert (n - 1) !in before;
      before + {n - 1}
  }

  /** `n` servers are online, and there is no job yet. */
  function Crew(n: nat): DB {
    EMPTY.(workers := map i | i in ServerIds(n) :: Worker(ServerName(i), WorkerState.Online, Some(0), None), nextWorker := n)
  }

  lemma Joins(n: nat)
    ensures Next(Sys(Crew(n), map[]), Serve(Register(ServerName(n)))) == Sys(Crew(n + 1), map[])
  {
    hide Crew, RegisterWorker;
    CrewGrows(n);
  }

  lemma NameIsNew(n: nat)
    ensures WorkersNamed(Crew(n), ServerName(n)) == {}
  {
    var db := Crew(n);
    forall w | w in db.workers ensures db.workers[w].name != ServerName(n) {
      assert |db.workers[w].name| == w + 1;
    }
  }

  lemma CrewGrows(n: nat)
    ensures RegisterWorker(Crew(n), ServerName(n)) == Crew(n + 1)
  {
    hide ServerName, WorkersNamed;
    NameIsNew(n);
    assert RegisterWorker(Crew(n), ServerName(n)).workers == Crew(n + 1).workers;
  }

  lemma NoCrew()
    ensures Crew(0) == EMPTY
  {
    assert Crew(0).workers == map[];
  }

  lemma {:induction false} CrewRegisters(n: nat)
    ensures Play(START, Registrations(n)) == Sys(Crew(n), map[])
  {
    hide Next, Crew;
    if n == 0 {
      NoCrew();
    } else {
      CrewRegisters(n - 1);
      Joins(n - 1);
      PlayOn(START, Registrations(n - 1), Serve(Register(ServerName(n - 1))));
    }
  }

  lemma CrewCount(db: DB, n: nat)
    requires n >= 1 && db.workers == Crew(n).workers
    ensures OnlineCount(db) == n
  {
    assert (set w | w in db.workers && db.workers[w].state.Online?) == ServerIds(n);
  }

  lemma JobSubmitted(targets: seq<Target>, n: nat)
    ensures Next(Sys(Crew(n), map[]), Serve(CreateJob(NewJob("kinescope", targets))))
            == Sys(AddJob(Crew(n), NewJob("kinescope", targets)), map[])
  {
  }

  lemma StartedReady(b: DB, after: DB, targets: seq<Target>, rows: seq<Chunk>, n: nat)
    requires n >= 1 && rows != [] && AllFresh(rows, 0) && FiniteStart(b, after, 0, rows)
    requires b.workers == Crew(n).workers && after.workers == b.workers && b.chunks == map[] && b.nextChunk == 0
    requires (forall j :: j in b.jobs <==> j == 0) && b.jobs[0].owner.None? && b.jobs[0].targets == targets
    ensures Ready(Sys(after, map[]), targets, rows, 0)
  {
    InsertedRows(b.chunks, 0, rows);
  }

  lemma StartIs(b: DB)
    requires 0 in b.jobs && b.jobs[0].state.Created? && FirstStart(b, 0).Some?
    ensures Next(Sys(b, map[]), Serve(Control(0, Start))) == Sys(FirstStart(b, 0).value, map[])
  {
    hide Initialize;
  }

  lemma JobStarted(b: DB, targets: seq<Target>, rows: seq<Chunk>, n: nat)
    requires n >= 1 && targets != [] && !HasOpenEnded(targets) && !Clash(map[], rows)
    requires b == AddJob(Crew(n), NewJob("kinescope", targets))
    requires rows == PreCut(0, targets, n) && rows != [] && AllFresh(rows, 0)
    ensures Ready(Next(Sys(b, map[]), Serve(Control(0, Start))), targets, rows, 0)
  {
    hide Ready, FiniteStart, PreCut, Inserted, OnlineCount;
    CrewCount(b, n);
    assert Initialize(b, 0).Some?;
    StartIs(b);
    FiniteStartIs(b, 0, rows);
    StartedReady(b, FirstStart(b, 0).value, targets, rows, n);
  }

  lemma Opened(targets: seq<Target>, n: nat)
    requires n >= 1 && targets != [] && !HasOpenEnded(targets) && !Clash(map[], PreCut(0, targets, n))
    ensures AllFresh(PreCut(0, targets, n), 0)
    ensures PreCut(0, targets, n) != [] ==> Ready(Play(START, Opening(targets, n)), targets, PreCut(0, targets, n), 0)
  {
    hide Ready, PreCut, Next, AddJob;
    PreCutCovers(0, targets, n);
    CrewRegisters(n);
    JobSubmitted(targets, n);
    var b := AddJob(Crew(n), NewJob("kinescope", targets));
    if PreCut(0, targets, n) != [] { JobStarted(b, targets, PreCut(0, targets, n), n); }
    var create := Serve(CreateJob(NewJob("kinescope", targets)));
    PlayOn(START, Registrations(n), create);
    PlayOn(START, Registrations(n) + [create], Serve(Control(0, Start)));
    assert Opening(targets, n) == Registrations(n) + [create] + [Serve(Control(0, Start))];
  }

  // ---- Exactly when a result can be overwritten --------------------------------------------------

  /** After the play, the move leaves the completed item `x` of every job over these targets as it is, unless
      it deletes on purpose. */
  ghost predicate Harmless(ms: seq<Move>, m: Move, targets: seq<Target>, x: int) {
    var s := Play(START, ms);
    (m.Serve? ==> Preserving(m.request)) ==>
      forall j :: j in s.db.jobs && s.db.jobs[j].targets == targets ==> StandsAt(s.db, Next(s, m).db, Key(j, x))
  }

  /** Up to asking for chunk `d`. */
  ghost function Lead(targets: seq<Target>, n: nat, rows: seq<Chunk>, d: nat): seq<Move>
    requires d <= |rows| && AllFresh(rows, 0)
  {
    Opening(targets, n) + Moves(rows, d) + [ASK]
  }

  lemma {:induction false} LeadPlays(targets: seq<Target>, n: nat, rows: seq<Chunk>, d: nat)
    requires d <= |rows| && AllFresh(rows, 0)
    ensures Play(START, Lead(targets, n, rows, d)) == Next(Play(Play(START, Opening(targets, n)), Moves(rows, d)), ASK)
  {
    hide Next, Opening;
    PlayJoins(START, Opening(targets, n), Moves(rows, d));
    PlayOn(START, Opening(targets, n) + Moves(rows, d), ASK);
  }

  lemma FailingOverwrites(s: Sys, targets: seq<Target>, rows: seq<Chunk>, c: nat, d: nat, x: int)
    requires Ready(s, targets, rows, d) && c < d && rows[c].Spans(x) && rows[d].Spans(x)
    ensures rows[d].lo <= rows[d].hi
    ensures var taken := Next(s, ASK);
            !StandsAt(taken.db, Next(taken, Whole(rows[d], ItemStatus.Failed)).db, Key(0, x))
  {
    hide Ready, Next, Uniform;
    AskTakes(s, targets, rows, d);
    var taken := Next(s, ASK);
    SendRecords(taken, targets, rows, d, ItemStatus.Failed);
    assert taken.db.tables.items[Key(0, x)].status.Completed?;
  }

  /** An identifier named by two targets, for any number of online servers with which the job can be started:
      a play in which an honest report turns its completed video into a failed one. */
  lemma OverlapOverwrites(targets: seq<Target>, n: nat, x: int) returns (ms: seq<Move>, m: Move)
    requires n >= 1 && targets != [] && !HasOpenEnded(targets) && !Clash(map[], PreCut(0, targets, n))
    requires !Once(targets, x)
    ensures !Harmless(ms, m, targets, x)
  {
    hide Next, Opening, Moves, Clash, Uniform, PreCut, Once;
    var rows := PreCut(0, targets, n);
    PreCutDisjoint(0, targets, n);
    var c, d :| 0 <= c < d < |rows| && rows[c].Spans(x) && rows[d].Spans(x);
    Opened(targets, n);
    var s := Play(START, Opening(targets, n));
    WorksThrough(s, targets, rows, d);
    var ready := Play(s, Moves(rows, d));
    FailingOverwrites(ready, targets, rows, c, d, x);
    AskTakes(ready, targets, rows, d);
    LeadPlays(targets, n, rows, d);
    ms := Lead(targets, n, rows, d);
    m := Whole(rows[d], ItemStatus.Failed);
  }

  lemma OnceHarmless(ms: seq<Move>, m: Move, targets: seq<Target>, x: int)
    requires Once(targets, x)
    ensures Harmless(ms, m, targets, x)
  {
    hide Next, Preserving, Once, StandsAt;
    var s := Play(START, ms);
    EveryPlayIsHonest(ms);
    if m.Serve? ==> Preserving(m.request) {
      forall j | j in s.db.jobs && s.db.jobs[j].targets == targets ensures StandsAt(s.db, Next(s, m).db, Key(j, x)) {
        MoveStands(s, m, Key(j, x));
      }
    }
  }

  /** For finite targets a job can be started over, with any number of online servers, and any identifier: no
      play at all, whatever other jobs it creates, overwrites that identifier's completed result in a job over
      these targets exactly when at most one of them names it. */
  lemma OverwritesExactlyWhereNamedTwice(targets: seq<Target>, n: nat, x: int)
    requires n >= 1 && targets != [] && !HasOpenEnded(targets) && !Clash(map[], PreCut(0, targets, n))
    ensures Once(targets, x) <==> forall ms, m :: Harmless(ms, m, targets, x)
  {
    hide Harmless, Once, PreCut, Clash;
    if Once(targets, x) {
      forall ms, m ensures Harmless(ms, m, targets, x) { OnceHarmless(ms, m, targets, x); }
    } else {
      var ms, m := OverlapOverwrites(targets, n, x);
    }
  }

  /** So no completed result of a job over them is ever overwritten exactly when the targets are disjoint. */
  lemma OverwritesExactlyOnOverlap(targets: seq<Target>, n: nat)
    requires n >= 1 && targets != [] && !HasOpenEnded(targets) && !Clash(map[], PreCut(0, targets, n))
    ensures Disjoint(targets) <==> forall ms, m, x :: Harmless(ms, m, targets, x)
  {
    hide Harmless, Once, PreCut, Clash;
    if Disjoint(targets) {
      forall ms, m, x ensures Harmless(ms, m, targets, x) { OnceHarmless(ms, m, targets, x); }
    } else {
      var x :| !Once(targets, x);
      var ms, m := OverlapOverwrites(targets, n, x);
    }
  }
}
