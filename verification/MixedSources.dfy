/** How the drain check's blindness to sources loses a video: played out from the empty database. */
module MixedSources {
  import opened Rows
  import opened Catalogue
  import opened Database
  import opened Chunking
  import opened SchedulerSpec
  import opened DrainSpec
  import opened Requests
  import opened Agents
  import opened Videos
  import opened SourceBlindness

  const VIDEO: Target := Span(9, Some(9))

  /** Video 9 of one source, for one server only, as the form stores it: targets and no range. */
  function VideoJob(source: string, owner: nat): Job {
    Job(source, None, None, None, DEFAULT_CHUNK_SIZE, Some(owner), None, JobState.Created, [VIDEO])
  }

  function SourceOf(j: nat): string {
    if j == 0 then "kinescope" else "mock"
  }

  const FETCHED := Result(9, ItemStatus.Completed, None, None, None, None, None, None, None, None)

  /** Two servers register, one job for each of them is created, and both are started. */
  const SETUP: seq<Move> := [
    Serve(Register("a")), Serve(Register("bb")),
    Serve(CreateJob(VideoJob("kinescope", 0))), Serve(CreateJob(VideoJob("mock", 1))),
    Serve(Control(0, Start)), Serve(Control(1, Start))]

  function AskOf(w: nat): Move { Ask(w, DEFAULT_LEASE_SECONDS, Answered) }

  function SendOf(w: nat): Move { Send(w, 1, [FETCHED], Answered) }

  /** Each server downloads the video of its job. */
  const FETCHING: seq<Move> := [AskOf(0), SendOf(0), AskOf(1), SendOf(1)]

  const REMOVAL: Move := Serve(RemoveWorker(0, true))

  // ---- The states of the play --------------------------------------------------------------------

  /** Servers 0 and 1 are online, each with its own running job. */
  ghost predicate Posted(db: DB) {
    && (forall w: nat :: w in db.workers <==> w < 2)
    && (forall w: nat :: w < 2 ==> db.workers[w].state.Online? && db.workers[w].free.None?)
    && (forall j: nat :: j in db.jobs <==> j < 2)
    && (forall j: nat :: j < 2 ==> db.jobs[j] == VideoJob(SourceOf(j), j).(state := JobState.Running))
  }

  function Row(j: nat): Chunk {
    NewChunk(j, Interval(9, 9), None)
  }

  predicate Busy(ch: Chunk, now: int) {
    ch.status.Leased? && ch.expires.Some? && now <= ch.expires.value
  }

  /** Chunk `c` belongs to job `c`; the first `done` chunks are leased, the others are as they were cut. */
  ghost predicate Held(db: DB, done: nat) {
    && (forall c: nat :: c in db.chunks <==> c < 2)
    && (forall c: nat :: c < 2 ==> SameRange(db.chunks[c], Row(c)))
    && (forall c: nat :: c < 2 ==> if c < done then Busy(db.chunks[c], db.now) else db.chunks[c] == Row(c))
  }

  /** The items are the videos of the first `done` jobs, each on its server. */
  ghost predicate Fetched(t: Tables, done: nat) {
    && (forall k :: k in t.items <==> k.job < done && k.id == 9)
    && (forall j: nat :: j < done ==> t.items[Key(j, 9)].status.Completed? && t.items[Key(j, 9)].worker == Some(j))
  }

  ghost predicate Fleet(s: Sys, done: nat) {
    && Posted(s.db) && Held(s.db, done) && Fetched(s.db.tables, done)
    && (forall w :: w in s.agents && done <= w ==> s.agents[w].Idle?)
  }

  // ---- Each server asks and reports --------------------------------------------------------------

  lemma FleetFinds(db: DB, w: nat)
    requires Posted(db) && Held(db, w) && w < 2
    ensures ReclaimExpired(db) == db
    ensures Takeable(db, w) != {} && Least(Takeable(db, w)) == w
  {
    assert ReclaimExpired(db).chunks == db.chunks;
    assert w in Takeable(db, w);
  }

  lemma FleetAsks(s: Sys, w: nat)
    requires Fleet(s, w) && w < 2
    ensures w in s.db.chunks
    ensures Next(s, AskOf(w)) == Sys(Grant(s.db, w, w, DEFAULT_LEASE_SECONDS), s.agents[w := Working(w, 9, 9)])
  {
    hide Clash, ReclaimExpired, Takeable, Cuttable;
    FleetFinds(s.db, w);
    assert Lease(s.db, w, DEFAULT_LEASE_SECONDS) == (Grant(s.db, w, w, DEFAULT_LEASE_SECONDS), Given(w));
  }

  /** What recording the one result does to the items. */
  lemma {:induction false} FetchedRecorded(t: Tables, who: Reporter)
    ensures RecordAll(t, who, [FETCHED]).items
            == Upsert(t, Key(who.job, 9), who.worker, ItemStatus.Completed, None).items
  {
    assert [FETCHED][..0] == [];
    assert RecordAll(t, who, []) == t;
  }

  lemma SendOutcome(s: Sys, w: nat, c: nat)
    requires s.AgentOf(w) == Working(c, 9, 9) && w in s.db.workers && Holds(s.db, w, c)
    requires JobRunning(s.db, s.db.chunks[c].job)
    ensures Next(s, SendOf(w)) == Sys(Progress(s.db, w, c, 10, [FETCHED]).0, s.agents[w := Working(c, 10, 9)])
  {
    hide RecordAll;
    assert IsBatch([FETCHED], 9, 10);
    assert Progress(s.db, w, c, 10, [FETCHED]).1 == Stored(true);
  }

  lemma FleetGrants(db: DB, w: nat)
    requires Posted(db) && Held(db, w) && w < 2
    ensures w in db.chunks
    ensures var e := Grant(db, w, w, DEFAULT_LEASE_SECONDS);
            && Posted(e) && Held(e, w + 1) && e.tables == db.tables && Holds(e, w, w) && e.chunks[w].job == w
            && w in e.workers && JobRunning(e, w)
  {
  }

  lemma HeldWrites(e: DB, w: nat)
    requires Posted(e) && Held(e, w + 1) && w < 2 && w in e.workers && Holds(e, w, w) && e.chunks[w].job == w
    ensures var d := Progress(e, w, w, 10, [FETCHED]).0; Posted(d) && Held(d, w + 1)
  {
    hide RecordAll;
  }

  lemma FetchedWrites(e: DB, w: nat)
    requires w in e.workers && Fetched(e.tables, w) && Holds(e, w, w) && e.chunks[w].job == w
    ensures Fetched(Progress(e, w, w, 10, [FETCHED]).0.tables, w + 1)
  {
    hide RecordAll;
    FetchedRecorded(e.tables, ReporterOf(e, w, w));
  }

  lemma FleetSends(s: Sys, w: nat)
    requires Fleet(s, w) && w < 2
    ensures Fleet(Next(Next(s, AskOf(w)), SendOf(w)), w + 1)
  {
    hide Next, Posted, Held, Fetched, Grant, Progress;
    FleetAsks(s, w);
    FleetGrants(s.db, w);
    var e := Grant(s.db, w, w, DEFAULT_LEASE_SECONDS);
    HeldWrites(e, w);
    FetchedWrites(e, w);
    SendOutcome(Next(s, AskOf(w)), w, w);
    assert s.agents[w := Working(w, 9, 9)][w := Working(w, 10, 9)] == s.agents[w := Working(w, 10, 9)];
  }

  // ---- How the play begins -----------------------------------------------------------------------

  const PAIR: DB := EMPTY.(
    workers := map[0 := Worker("a", WorkerState.Online, Some(0), None), 1 := Worker("bb", WorkerState.Online, Some(0), None)],
    nextWorker := 2)

  const POSTED: DB := PAIR.(jobs := map[0 := VideoJob("kinescope", 0), 1 := VideoJob("mock", 1)], nextJob := 2)

  lemma PairJoins()
    ensures Next(Next(START, SETUP[0]), SETUP[1]) == Sys(PAIR, map[])
  {
    assert WorkersNamed(EMPTY, "a") == {};
    var d := RegisterWorker(EMPTY, "a");
    assert d.workers[0].name != "bb" by { assert |d.workers[0].name| == 1; }
    assert WorkersNamed(d, "bb") == {};
  }

  lemma JobsPosted()
    ensures Next(Next(Sys(PAIR, map[]), SETUP[2]), SETUP[3]) == Sys(POSTED, map[])
  {
  }

  /** However many servers there are, one video is cut into one chunk. */
  lemma OneRow(j: nat, workers: int)
    ensures PreCut(j, [VIDEO], workers) == [Row(j)]
  {
    assert [VIDEO][..0] == [];
    var size := AutoChunkSize(1, workers);
    assert Tiles(10, 9, size) == [];
    assert Tiles(9, 9, size) == [Interval(9, 9)];
    assert TargetChunks(j, VIDEO, workers) == [Row(j)];
    assert ChunksOf(j, [], false, workers) == [] && ChunksOf(j, [], true, workers) == [];
  }

  /** The database after job `j` started. */
  function WithRow(db: DB, j: nat): DB
    requires j in db.jobs
  {
    db.(jobs := db.jobs[j := db.jobs[j].(state := JobState.Running)],
        chunks := db.chunks[db.nextChunk := Row(j)], nextChunk := db.nextChunk + 1)
  }

  lemma JobBegins(db: DB, agents: map<nat, Agent>, j: nat)
    requires j in db.jobs && db.jobs[j] == VideoJob(SourceOf(j), j)
    requires forall c :: c in db.chunks ==> db.chunks[c].job != j
    ensures Next(Sys(db, agents), Serve(Control(j, Start))) == Sys(WithRow(db, j), agents)
  {
    hide PreCut, OnlineCount, SourceOf;
    OneRow(j, OnlineCount(db));
    assert !HasOpenEnded([VIDEO]);
    assert [Row(j)][..0] == [];
    assert !Clash(db.chunks, [Row(j)]);
    assert Inserted(db.chunks, db.nextChunk, [Row(j)]) == db.chunks[db.nextChunk := Row(j)];
  }

  lemma JobsStart()
    ensures Fleet(Next(Next(Sys(POSTED, map[]), SETUP[4]), SETUP[5]), 0)
  {
    hide Next;
    JobBegins(POSTED, map[], 0);
    JobBegins(WithRow(POSTED, 0), map[], 1);
    BothBegun();
  }

  lemma BothBegun()
    ensures Fleet(Sys(WithRow(WithRow(POSTED, 0), 1), map[]), 0)
  {
  }

  lemma {:induction false} PlaySix(s: Sys, ms: seq<Move>)
    requires |ms| == 6
    ensures Play(s, ms) == Next(Next(Next(Next(Next(Next(s, ms[0]), ms[1]), ms[2]), ms[3]), ms[4]), ms[5])
  {
    hide Next;
    PlayThree(s, ms[0], ms[1], ms[2]);
    PlayThree(Play(s, ms[..3]), ms[3], ms[4], ms[5]);
    assert ms[..3] == [ms[0], ms[1], ms[2]] && ms[3..] == [ms[3], ms[4], ms[5]] && ms == ms[..3] + ms[3..];
    PlayJoins(s, ms[..3], ms[3..]);
  }

  lemma SetUp()
    ensures Fleet(Play(START, SETUP), 0)
  {
    hide Next, Fleet;
    PairJoins();
    JobsPosted();
    JobsStart();
    PlaySix(START, SETUP);
  }

  lemma {:induction false} Fetches(s: Sys, w: nat)
    requires Fleet(s, w) && w < 2
    ensures Fleet(Play(s, [AskOf(w), SendOf(w)]), w + 1)
  {
    hide Next, Fleet;
    FleetSends(s, w);
    PlayOn(s, [], AskOf(w));
    PlayOn(s, [AskOf(w)], SendOf(w));
    assert [] + [AskOf(w)] == [AskOf(w)] && [AskOf(w)] + [SendOf(w)] == [AskOf(w), SendOf(w)];
  }

  lemma BothFetched()
    ensures Fleet(Play(START, SETUP + FETCHING), 2)
  {
    hide Next, Fleet, SETUP;
    SetUp();
    var s := Play(START, SETUP);
    Fetches(s, 0);
    Fetches(Play(s, [AskOf(0), SendOf(0)]), 1);
    PlayJoins(s, [AskOf(0), SendOf(0)], [AskOf(1), SendOf(1)]);
    assert FETCHING == [AskOf(0), SendOf(0)] + [AskOf(1), SendOf(1)];
    PlayJoins(START, SETUP, FETCHING);
  }

  // ---- The removal -------------------------------------------------------------------------------

  /** Server 1 has a completed item with the same identifier, so nothing is queued and server 0 goes. */
  lemma RemovalPurges(s: Sys)
    requires Fleet(s, 2)
    ensures Next(s, REMOVAL).db == Purge(SetDraining(s.db, 0), 0)
  {
    hide Purge, StartDrain, SetDraining;
    var db := s.db;
    assert Key(1, 9) in db.tables.items;
    assert Unmigrated(db.tables, 0) == {};
    assert db.workers[1].state.Online?;
    assert OtherOnline(db, 0);
    NothingToMove(db, 0);
  }

  lemma RemovalLoses(s: Sys)
    requires Fleet(s, 2)
    ensures HasCopyOf(s.db, "kinescope", 9) && !HasCopyOf(Next(s, REMOVAL).db, "kinescope", 9)
  {
    hide Next, Purge, SetDraining, Removed;
    RemovalPurges(s);
    MarkedThenPurged(s.db, 0);
    assert s.db.tables.items[Key(0, 9)].worker == Some(0);
    assert s.db.jobs[0].source == SourceOf(0);
    assert IsCopyOf(s.db, Key(0, 9), "kinescope", 9);
    forall k ensures !IsCopyOf(Next(s, REMOVAL).db, k, "kinescope", 9) {
      CopySurvives(s.db, Next(s, REMOVAL).db, {0}, k, "kinescope", 9);
      if IsCopyOf(s.db, k, "kinescope", 9) {
        assert |"mock"| != |"kinescope"|;
        assert s.db.jobs[k.job].source == SourceOf(k.job);
        assert k == Key(0, 9);
      }
    }
  }

  /** In a play without explicit deletions, removing a server with redistribution can lose a video: with
      two jobs of different sources over the same identifier, one on each server, the other server's item is
      taken for a copy. */
  lemma MixedSourcesLoseAVideo() returns (ms: seq<Move>, m: Move)
    ensures forall i, id :: 0 <= i < |ms| ==> Careful(ms[i], id)
    ensures (forall id :: Careful(m, id)) && m == Serve(RemoveWorker(0, true))
    ensures HasCopyOf(Play(START, ms).db, "kinescope", 9)
    ensures !HasCopyOf(Next(Play(START, ms), m).db, "kinescope", 9)
  {
    hide Next, Fleet, HasCopyOf;
    BothFetched();
    ms, m := SETUP + FETCHING, REMOVAL;
    RemovalLoses(Play(START, ms));
  }
}
