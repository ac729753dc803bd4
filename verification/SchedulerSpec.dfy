/** What each scheduler operation does to the database, as functions on values. */
module SchedulerSpec {
  import opened Rows
  import opened Catalogue
  import opened Database
  import opened Chunking

  const DEFAULT_LEASE_SECONDS := 120
  const MIN_FREE_SPACE_GB := 5.0
  const RETRY_LIMIT := 1000

  // ---- Starting a job --------------------------------------------------------------------------

  /** Online workers, or three when none is known to be online. */
  function OnlineCount(db: DB): nat {
    var n := |set w | w in db.workers && db.workers[w].state.Online?|;
    if n == 0 then 3 else n
  }

  /** Is the job's work cut on demand (by its cursor) rather than at its first start? */
  predicate Lazy(job: Job) {
    job.targets == [] || HasOpenEnded(job.targets)
  }

  function WithJob(db: DB, j: nat, job: Job): DB {
    db.(jobs := db.jobs[j := job])
  }

  /** Prepare the work of a job that starts for the first time; None when the chunk rows violate
      the unique constraint, which rolls the transaction back. */
  ghost function Initialize(db: DB, j: nat): (r: Option<DB>)
    requires j in db.jobs
    ensures r.Some? ==>
              && r.value.workers == db.workers && r.value.tables == db.tables && r.value.log == db.log
              && r.value.jobs.Keys == db.jobs.Keys && r.value.now == db.now
              && r.value.nextJob == db.nextJob && r.value.nextWorker == db.nextWorker
  {
    var job := db.jobs[j];
    if job.targets == [] then
      Some(if job.cursor.None? then
             WithJob(db, j, job.(cursor := Some(if job.lo.Some? then job.lo.value else 0)))
           else db)
    else if HasOpenEnded(job.targets) then
      var t := FirstOpen(job.targets);
      Some(WithJob(db, j, job.(lo := Some(t.lo), hi := None, cursor := Some(t.lo))))
    else
      var rows := PreCut(j, job.targets, OnlineCount(db));
      if Clash(db.chunks, rows) then None
      else Some(WithJob(db, j, job.(cursor := None)).(
             chunks := Inserted(db.chunks, db.nextChunk, rows), nextChunk := db.nextChunk + |rows|))
  }

  // ---- Leasing -----------------------------------------------------------------------------------

  predicate Expired(ch: Chunk, now: int) {
    ch.status.Leased? && ch.expires.Some? && ch.expires.value < now
  }

  function Reclaimed(ch: Chunk, now: int): Chunk {
    if Expired(ch, now) then ch.Released().(attempt := ch.attempt + 1) else ch
  }

  function ReclaimExpired(db: DB): DB {
    db.(chunks := map c | c in db.chunks :: Reclaimed(db.chunks[c], db.now))
  }

  function Swept(w: Worker, cutoff: int): Worker {
    if w.state.Online? && (w.beat.None? || w.beat.value < cutoff) then w.(state := WorkerState.Offline) else w
  }

  function MarkStaleWorkers(db: DB, offlineAfter: int): DB {
    db.(workers := map w | w in db.workers :: Swept(db.workers[w], db.now - offlineAfter))
  }

  predicate HasSpace(w: Worker) {
    w.free.None? || w.free.value >= MIN_FREE_SPACE_GB
  }

  predicate Eligible(job: Job, w: nat) {
    job.owner.None? || job.owner == Some(w)
  }

  /** Pending chunks of running jobs the worker may take. */
  ghost function Takeable(db: DB, w: nat): set<nat> {
    set c | c in db.chunks && db.chunks[c].status.Pending?
            && db.chunks[c].job in db.jobs
            && db.jobs[db.chunks[c].job].state.Running?
            && Eligible(db.jobs[db.chunks[c].job], w)
  }

  predicate HasUncut(job: Job) {
    job.cursor.Some? && (job.hi.None? || job.cursor.value <= job.hi.value)
  }

  /** Running jobs with range left to cut that the worker may take. */
  ghost function Cuttable(db: DB, w: nat): set<nat> {
    set j | j in db.jobs && db.jobs[j].state.Running? && Eligible(db.jobs[j], w) && HasUncut(db.jobs[j])
  }

  /** The next piece the cursor cuts off. */
  function NextPiece(j: nat, job: Job): Chunk
    requires HasUncut(job)
  {
    var start := job.cursor.value;
    var last := start + job.size - 1;
    NewChunk(j, Interval(start, if job.hi.Some? then Min(last, job.hi.value) else last), None)
  }

  function CutPiece(db: DB, j: nat): DB
    requires j in db.jobs && HasUncut(db.jobs[j])
  {
    var job := db.jobs[j];
    var piece := NextPiece(j, job);
    db.(chunks := db.chunks[db.nextChunk := piece],
        jobs := db.jobs[j := job.(cursor := Some(piece.hi + 1))],
        nextChunk := db.nextChunk + 1,
        log := db.log + [Cut(db.nextChunk, j, piece.lo, piece.hi)])
  }

  function Grant(db: DB, c: nat, w: nat, seconds: int): DB
    requires c in db.chunks
  {
    var ch := db.chunks[c];
    db.(chunks := db.chunks[c := ch.(status := ChunkStatus.Leased, holder := Some(w), expires := Some(db.now + seconds))],
        log := db.log + [Granted(c, ch.job, w)])
  }

  /** Conflict: the freshly cut piece violates the unique constraint, so the request is rolled back. */
  datatype LeaseReply = Given(chunk: nat) | NoWork | Conflict

  ghost function Lease(db: DB, w: nat, seconds: int): (DB, LeaseReply)
    requires w in db.workers
  {
    if db.workers[w].state.Draining? then (db, NoWork)
    else
      var d := ReclaimExpired(db);
      if !HasSpace(d.workers[w]) then (d, NoWork)
      else if Takeable(d, w) != {} then
        var c := Least(Takeable(d, w));
        (Grant(d, c, w, seconds), Given(c))
      else if Cuttable(d, w) == {} then (d, NoWork)
      else
        var j := Least(Cuttable(d, w));
        if Clash(d.chunks, [NextPiece(j, d.jobs[j])]) then (db, Conflict)
        else (Grant(CutPiece(d, j), d.nextChunk, w, seconds), Given(d.nextChunk))
  }

  // ---- Heartbeats --------------------------------------------------------------------------------

  /** Renew only the chunk the worker is actively processing, and only if it holds it. */
  function RenewLeases(db: DB, w: nat, seconds: int, active: Option<nat>): DB
    requires w in db.workers
  {
    var beat := db.(workers := db.workers[w := db.workers[w].(beat := Some(db.now))]);
    if active.Some? && active.value in db.chunks && db.chunks[active.value].holder == Some(w)
       && db.chunks[active.value].status.Leased?
    then beat.(chunks := db.chunks[active.value := db.chunks[active.value].(expires := Some(db.now + seconds))])
    else beat
  }

  // ---- Progress ----------------------------------------------------------------------------------

  /** `Stored(proceed)`: the batch was recorded; Missing and Stale leave the database untouched. */
  datatype ProgressReply = Missing | Stale | Stored(proceed: bool)

  predicate Holds(db: DB, w: nat, c: nat) {
    c in db.chunks && db.chunks[c].status.Leased? && db.chunks[c].holder == Some(w)
  }

  function Ids(rs: seq<Result>): (ids: seq<int>)
    ensures |ids| == |rs|
    ensures forall i :: 0 <= i < |rs| ==> ids[i] == rs[i].id
  {
    seq(|rs|, i requires 0 <= i < |rs| => rs[i].id)
  }

  predicate JobRunning(db: DB, j: nat) {
    j in db.jobs && db.jobs[j].state.Running?
  }

  function ReporterOf(db: DB, w: nat, j: nat): Reporter
    requires w in db.workers
  {
    Reporter(j, if j in db.jobs then db.jobs[j].group else None, w, db.workers[w].name)
  }

  /** The chunk row after an accepted report. */
  function Advanced(db: DB, ch: Chunk, next: int): Chunk {
    var moved := if next > ch.next then ch.(next := next) else ch;
    if JobRunning(db, ch.job) then moved.(expires := Some(db.now + DEFAULT_LEASE_SECONDS)) else moved.Released()
  }

  ghost function Progress(db: DB, w: nat, c: nat, next: int, rs: seq<Result>): (DB, ProgressReply)
    requires w in db.workers
  {
    if c !in db.chunks then (db, Missing)
    else if !Holds(db, w, c) then (db, Stale)
    else
      var ch := db.chunks[c];
      (db.(chunks := db.chunks[c := Advanced(db, ch, next)],
           workers := db.workers[w := db.workers[w].(beat := Some(db.now))],
           tables := RecordAll(db.tables, ReporterOf(db, w, ch.job), rs),
           log := db.log + [Accepted(c, ch.job, w, Ids(rs), next)]),
       Stored(JobRunning(db, ch.job)))
  }

  // ---- Completing chunks and jobs ----------------------------------------------------------------

  datatype CompleteReply = NoChunk | Fenced | Done

  /** A worker completes (or, with any other status, gives back) a chunk it holds. Completing a
      completed chunk again is a no-op. */
  function CompleteChunk(db: DB, w: nat, c: nat, status: ChunkStatus): (DB, CompleteReply) {
    if c !in db.chunks then (db, NoChunk)
    else if status.Completed? && db.chunks[c].status.Completed? then (db, Done)
    else if !Holds(db, w, c) then (db, Fenced)
    else
      var ch := db.chunks[c];
      var after := if status.Completed? then ch.Released().(status := ChunkStatus.Completed)
                   else ch.Released().(attempt := ch.attempt + 1);
      (db.(chunks := db.chunks[c := after]), Done)
  }

  ghost predicate HasChunk(db: DB, j: nat) {
    exists c :: c in db.chunks && db.chunks[c].job == j
  }

  ghost predicate HasOpenChunk(db: DB, j: nat) {
    exists c :: c in db.chunks && db.chunks[c].job == j && db.chunks[c].Open()
  }

  /** No work remains: a cursor job is fully cut (an open-ended one never is), a pre-cut job had
      chunks, and none is open. */
  ghost predicate Finishable(db: DB, j: nat) {
    && JobRunning(db, j)
    && (if db.jobs[j].cursor.Some? then db.jobs[j].hi.Some? && db.jobs[j].cursor.value > db.jobs[j].hi.value
        else HasChunk(db, j))
    && !HasOpenChunk(db, j)
  }

  ghost function MaybeCompleteJob(db: DB, j: nat): DB {
    if Finishable(db, j) then WithJob(db, j, db.jobs[j].(state := JobState.Completed)) else db
  }

  // ---- Retrying failed identifiers ---------------------------------------------------------------

  predicate Retryable(status: ItemStatus) {
    status.Failed? || status.RetryWait? || status.RateLimited?
  }

  ghost function RetryKeys(db: DB, j: nat): set<Key> {
    set k | k in db.tables.items && k.job == j && Retryable(db.tables.items[k].status)
  }

  /** Single-identifier chunks of the job at `x`; the unique constraint leaves at most one. */
  ghost function SingleChunks(db: DB, j: nat, x: int): set<nat> {
    set c | c in db.chunks && db.chunks[c].job == j && db.chunks[c].lo == x && db.chunks[c].hi == x
  }

  function Rewound(ch: Chunk, x: int): Chunk {
    ch.Released().(next := x, attempt := ch.attempt + 1)
  }

  /** Give one failed identifier its own pending single-identifier chunk. */
  ghost function RequeueOne(db: DB, k: Key): DB
    requires k in db.tables.items
  {
    var singles := SingleChunks(db, k.job, k.id);
    var items := db.tables.items[k := db.tables.items[k].(status := ItemStatus.Pending)];
    var isNew := singles == {};
    var c := if isNew then db.nextChunk else Least(singles);
    var row := if isNew then NewChunk(k.job, Interval(k.id, k.id), None) else Rewound(db.chunks[c], k.id);
    db.(tables := db.tables.(items := items),
        chunks := db.chunks[c := row],
        nextChunk := if isNew then db.nextChunk + 1 else db.nextChunk,
        log := db.log + [Requeued(c, k.job)])
  }

  ghost function RequeueAll(db: DB, ks: seq<Key>): (r: DB)
    requires forall i :: 0 <= i < |ks| ==> ks[i] in db.tables.items
    ensures r.tables.items.Keys == db.tables.items.Keys
  {
    if ks == [] then db
    else RequeueOne(RequeueAll(db, ks[..|ks| - 1]), ks[|ks| - 1])
  }

  /** All failed identifiers of the job, in increasing order. */
  ghost function RetryOrder(db: DB, j: nat): seq<Key> {
    OrderBy(RetryKeys(db, j), (k: Key) => k.id)
  }

  /** The first RETRY_LIMIT of them. */
  ghost function RetryList(db: DB, j: nat): (ks: seq<Key>)
    ensures forall i :: 0 <= i < |ks| ==> ks[i] in RetryKeys(db, j)
    ensures forall i, k :: 0 <= i < k < |ks| ==> ks[i] != ks[k]
    ensures |ks| == Min(RETRY_LIMIT, |RetryKeys(db, j)|)
  {
    var all := RetryOrder(db, j);
    all[..Min(RETRY_LIMIT, |all|)]
  }

  /** Re-queue up to RETRY_LIMIT identifiers that ended in a transient failure; a finished job runs again. */
  ghost function Retry(db: DB, j: nat): DB
    requires j in db.jobs
  {
    var ks := RetryList(db, j);
    if ks == [] then db
    else
      var d := RequeueAll(db, ks);
      var job := db.jobs[j];
      if job.state.Completed? || job.state.Failed? then WithJob(d, j, job.(state := JobState.Running)) else d
  }
}
