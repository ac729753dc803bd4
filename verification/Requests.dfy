/** Every request the coordinator serves, and each sweeper action, as one atomic step. A request that
    is refused leaves the database as it was. */
module Requests {
  import opened Rows
  import opened Catalogue
  import opened Database
  import opened SchedulerSpec
  import opened DrainSpec

  datatype Command = Start | Pause | Resume | Stop

  datatype Request =
    | Tick(seconds: nat)
    | Register(name: string)
    | Heartbeat(worker: nat, active: Option<nat>, lease: int, sample: Option<Option<real>>)
    | MarkStale(offlineAfter: int)
    | TakeLease(worker: nat, lease: int)
    | Report(worker: nat, chunk: nat, next: int, results: seq<Result>)
    | Complete(worker: nat, chunk: nat, status: ChunkStatus)
    | Fail(worker: nat, chunk: nat)
    | CreateJob(job: Job)
    | Control(driven: nat, command: Command)
    | RetryJob(retried: nat)
    | Dismiss(item: Key)
    | DismissAll(of: Option<nat>)
    | DeleteJob(deleted: nat)
    | DeleteItems(items: set<Key>)
    | SweepJob(swept: nat)
    | SweepDrained(held: set<nat>, order: seq<nat>)
    | RemoveWorker(worker: nat, redistribute: bool)

  /** Which lifecycle commands a job in each state accepts. */
  predicate Allowed(command: Command, state: JobState) {
    match command
    case Start => state.Created? || state.Paused? || state.Stopped?
    case Pause => state.Running?
    case Resume => state.Paused?
    case Stop => state.Running? || state.Paused? || state.Pausing?
  }

  function NewState(command: Command): JobState {
    match command
    case Start => JobState.Running
    case Pause => JobState.Paused
    case Resume => JobState.Running
    case Stop => JobState.Stopped
  }

  /** A first start cuts the work before the job runs; if that violates a constraint nothing happens. */
  ghost function Drive(db: DB, j: nat, command: Command): DB
    requires j in db.jobs
  {
    var job := db.jobs[j];
    if !Allowed(command, job.state) then db
    else if command.Start? && job.state.Created? then
      match Initialize(db, j)
      case None => db
      case Some(d) => WithJob(d, j, d.jobs[j].(state := JobState.Running))
    else WithJob(db, j, job.(state := NewState(command)))
  }

  ghost function WorkersNamed(db: DB, name: string): set<nat> {
    set w | w in db.workers && db.workers[w].name == name
  }

  /** A worker that registers again keeps its row; a draining one stays draining. */
  ghost function RegisterWorker(db: DB, name: string): DB {
    if WorkersNamed(db, name) == {} then
      db.(workers := db.workers[db.nextWorker := Worker(name, WorkerState.Online, Some(db.now), None)],
          nextWorker := db.nextWorker + 1)
    else
      var w := Least(WorkersNamed(db, name));
      var row := db.workers[w];
      var state := if row.state.Draining? then row.state else WorkerState.Online;
      db.(workers := db.workers[w := row.(state := state, beat := Some(db.now))])
  }

  ghost function BeatHeart(db: DB, w: nat, active: Option<nat>, lease: int, sample: Option<Option<real>>): DB
    requires w in db.workers
  {
    var row := db.workers[w];
    var alive := if row.state.Draining? then row else row.(state := WorkerState.Online);
    var d := RenewLeases(db.(workers := db.workers[w := alive]), w, lease, active);
    if sample.Some? then d.(workers := d.workers[w := d.workers[w].(free := sample.value)]) else d
  }

  function Dismissed(row: Item): Item {
    if Retryable(row.status) then row.(status := ItemStatus.Cancelled) else row
  }

  /** Take retryable items (of one job, or all) off the retry list. */
  function DismissMany(db: DB, of: Option<nat>): DB {
    db.(tables := db.tables.(items := map k | k in db.tables.items ::
      if of.None? || of.value == k.job then Dismissed(db.tables.items[k]) else db.tables.items[k]))
  }

  ghost function WithoutJob(db: DB, j: nat): DB {
    db.(jobs := db.jobs - {j},
        chunks := map c | c in db.chunks && db.chunks[c].job != j :: db.chunks[c],
        tables := DropItems(db.tables, set k | k in db.tables.items && k.job == j))
  }

  /** What the API checks before it stores a job. */
  predicate Acceptable(db: DB, job: Job) {
    && job.state.Created? && job.cursor.None? && job.size >= 1
    && (job.hi.Some? ==> job.lo.Some? && job.lo.value <= job.hi.value)
    && (job.owner.Some? ==> job.owner.value in db.workers)
  }

  ghost function Apply(db: DB, r: Request): DB {
    match r
    case Tick(seconds) => db.(now := db.now + seconds)
    case Register(name) => RegisterWorker(db, name)
    case Heartbeat(w, active, lease, sample) => if w in db.workers then BeatHeart(db, w, active, lease, sample) else db
    case MarkStale(offlineAfter) => MarkStaleWorkers(db, offlineAfter)
    case TakeLease(w, lease) => if w in db.workers then Lease(db, w, lease).0 else db
    case Report(w, c, next, results) => if w in db.workers then Progress(db, w, c, next, results).0 else db
    case Complete(w, c, status) =>
      if w !in db.workers then db
      else
        var (d, reply) := CompleteChunk(db, w, c, status);
        if reply.Done? then MaybeCompleteJob(d, d.chunks[c].job) else db
    case Fail(w, c) => if w in db.workers then CompleteChunk(db, w, c, ChunkStatus.Failed).0 else db
    case CreateJob(job) => if Acceptable(db, job) then AddJob(db, job) else db
    case Control(j, command) => if j in db.jobs then Drive(db, j, command) else db
    case RetryJob(j) => if j in db.jobs then Retry(db, j) else db
    case Dismiss(k) =>
      if k in db.tables.items then
        db.(tables := db.tables.(items := db.tables.items[k := Dismissed(db.tables.items[k])]))
      else db
    case DismissAll(of) => DismissMany(db, of)
    case DeleteJob(j) => if j in db.jobs then WithoutJob(db, j) else db
    case DeleteItems(items) => db.(tables := DropItems(db.tables, items))
    case SweepJob(j) => MaybeCompleteJob(db, j)
    case SweepDrained(held, order) => if ListsDraining(db, order) then Finalize(db, held, order) else db
    case RemoveWorker(w, redistribute) =>
      if w !in db.workers then db
      else if redistribute then Redistribute(db, w)
      else Purge(db, w)
  }

  /** A run of requests. */
  ghost function Run(db: DB, rs: seq<Request>): DB {
    if rs == [] then db else Apply(Run(db, rs[..|rs| - 1]), rs[|rs| - 1])
  }
}
