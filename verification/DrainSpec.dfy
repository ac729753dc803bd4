/** Draining a server: queue re-downloads of the videos only it holds, remove it once all have copies. */
module DrainSpec {
  import opened Rows
  import opened Catalogue
  import opened Database
  import opened SchedulerSpec

  const DEFAULT_CHUNK_SIZE := 5000

  ghost predicate CompletedOn(t: Tables, w: nat, k: Key) {
    k in t.items && t.items[k].status.Completed? && t.items[k].worker == Some(w)
  }

  /** A completed copy of the video on some other server. */
  ghost predicate CopyElsewhere(t: Tables, w: nat, id: int) {
    exists k :: k in t.items && k.id == id && t.items[k].status.Completed?
                && t.items[k].worker.Some? && t.items[k].worker != Some(w)
  }

  /** Completed items on the server whose video has no completed copy elsewhere. */
  ghost function Unmigrated(t: Tables, w: nat): set<Key> {
    set k | k in t.items && CompletedOn(t, w, k) && !CopyElsewhere(t, w, k.id)
  }

  ghost function CompletedKeys(t: Tables, w: nat): set<Key> {
    set k | k in t.items && CompletedOn(t, w, k)
  }

  function ReleasedFrom(ch: Chunk, w: nat): Chunk {
    if ch.holder == Some(w) && ch.status.Leased? then ch.Released() else ch
  }

  function ReleaseHeldBy(db: DB, w: nat): DB {
    db.(chunks := map c | c in db.chunks :: ReleasedFrom(db.chunks[c], w))
  }

  /** Delete a worker with everything it completed. */
  ghost function Purge(db: DB, w: nat): DB {
    var d := ReleaseHeldBy(db, w);
    d.(tables := Detach(DropItems(db.tables, CompletedKeys(db.tables, w)), w),
       jobs := map j | j in db.jobs :: db.jobs[j].(owner := Unset(db.jobs[j].owner, w)),
       workers := db.workers - {w})
  }

  // ---- Queuing the transfers -------------------------------------------------------------------

  datatype Transfer = Transfer(id: int, source: string, url: Option<string>)

  /** How to fetch one item's video again; None when a link source has lost its link. */
  function TransferOf(db: DB, k: Key): Option<Transfer> {
    var source := if k.job in db.jobs then db.jobs[k.job].source else "kinescope";
    if source == "youtube" then
      var link := if k in db.tables.metas then db.tables.metas[k].link else None;
      if Truthy(link) then Some(Transfer(k.id, source, link)) else None
    else Some(Transfer(k.id, source, None))
  }

  ghost predicate HasVideo(ts: seq<Transfer>, id: int) {
    exists i :: 0 <= i < |ts| && ts[i].id == id
  }

  /** One transfer per distinct video, from its first item that can be fetched again. */
  ghost function Transfers(db: DB, ks: seq<Key>): (ts: seq<Transfer>) {
    if ks == [] then []
    else
      var k := ks[|ks| - 1];
      var before := Transfers(db, ks[..|ks| - 1]);
      if HasVideo(before, k.id) then before
      else match TransferOf(db, k)
        case None => before
        case Some(t) => before + [t]
  }

  /** The sources in order of first appearance. */
  function Sources(ts: seq<Transfer>): seq<string> {
    if ts == [] then []
    else
      var before := Sources(ts[..|ts| - 1]);
      if ts[|ts| - 1].source in before then before else before + [ts[|ts| - 1].source]
  }

  function InsertById(ts: seq<Transfer>, t: Transfer): seq<Transfer> {
    if ts == [] || ts[|ts| - 1].id <= t.id then ts + [t]
    else InsertById(ts[..|ts| - 1], t) + [ts[|ts| - 1]]
  }

  /** The transfers of one source, sorted by identifier. */
  function EntriesOf(ts: seq<Transfer>, source: string): seq<Transfer> {
    if ts == [] then []
    else
      var before := EntriesOf(ts[..|ts| - 1], source);
      if ts[|ts| - 1].source == source then InsertById(before, ts[|ts| - 1]) else before
  }

  function TargetOf(t: Transfer): Target {
    if t.url.Some? then Link(t.id, t.url.value) else Span(t.id, Some(t.id))
  }

  function TargetsOf(ts: seq<Transfer>): seq<Target> {
    seq(|ts|, i requires 0 <= i < |ts| => TargetOf(ts[i]))
  }

  function NewJob(source: string, targets: seq<Target>): Job {
    Job(source, None, None, None, DEFAULT_CHUNK_SIZE, None, None, JobState.Created, targets)
  }

  function AddJob(db: DB, job: Job): DB {
    db.(jobs := db.jobs[db.nextJob := job], nextJob := db.nextJob + 1)
  }

  /** Create a job and start it at once; None when its chunks violate the unique constraint. */
  ghost function AddRunning(db: DB, job: Job): (r: Option<DB>)
    ensures r.Some? ==> r.value.workers == db.workers && r.value.tables == db.tables && r.value.log == db.log && r.value.nextWorker == db.nextWorker
  {
    var j := db.nextJob;
    match Initialize(AddJob(db, job), j)
    case None => None
    case Some(d) => Some(WithJob(d, j, d.jobs[j].(state := JobState.Running)))
  }

  ghost function TransferJobs(db: DB, ts: seq<Transfer>, sources: seq<string>): (r: Option<DB>)
    ensures r.Some? ==> r.value.workers == db.workers && r.value.tables == db.tables && r.value.log == db.log && r.value.nextWorker == db.nextWorker
  {
    if sources == [] then Some(db)
    else
      match TransferJobs(db, ts, sources[..|sources| - 1])
      case None => None
      case Some(d) =>
        var source := sources[|sources| - 1];
        AddRunning(d, NewJob(source, TargetsOf(EntriesOf(ts, source))))
  }

  /** The unmigrated items in the order of their primary keys. */
  ghost function PendingKeys(db: DB, w: nat): seq<Key> {
    OrderBy(Unmigrated(db.tables, w), (k: Key) => if k in db.tables.items then db.tables.items[k].pk else 0)
  }

  ghost function Plan(db: DB, w: nat): seq<Transfer> {
    Transfers(db, PendingKeys(db, w))
  }

  function SetDraining(db: DB, w: nat): DB
    requires w in db.workers
  {
    ReleaseHeldBy(db.(workers := db.workers[w := db.workers[w].(state := WorkerState.Draining)]), w)
  }

  /** Queue a re-download of every video that exists only on `w` and mark `w` draining. */
  ghost function StartDrain(db: DB, w: nat): (r: Option<DB>)
    requires w in db.workers
    ensures r.Some? ==>
              && r.value.tables == db.tables && r.value.log == db.log && r.value.nextWorker == db.nextWorker
              && r.value.workers == db.workers[w := db.workers[w].(state := WorkerState.Draining)]
  {
    var ts := Plan(db, w);
    match TransferJobs(db, ts, Sources(ts))
    case None => None
    case Some(d) => Some(SetDraining(d, w))
  }

  // ---- Removing drained servers ------------------------------------------------------------------

  ghost function FinalizeOne(db: DB, held: set<nat>, w: nat): DB {
    if w in held || Unmigrated(db.tables, w) != {} then db else Purge(db, w)
  }

  /** One pass over the draining servers, in the order the query returned them. */
  ghost function Finalize(db: DB, held: set<nat>, order: seq<nat>): DB {
    if order == [] then db
    else FinalizeOne(Finalize(db, held, order[..|order| - 1]), held, order[|order| - 1])
  }

  /** `order` lists the draining servers, each once. */
  ghost predicate ListsDraining(db: DB, order: seq<nat>) {
    && (forall i, k :: 0 <= i < k < |order| ==> order[i] != order[k])
    && (forall w :: w in db.workers && db.workers[w].state.Draining? ==> w in order)
    && (forall i :: 0 <= i < |order| ==> order[i] in db.workers && db.workers[order[i]].state.Draining?)
  }

  ghost predicate OtherOnline(db: DB, w: nat) {
    exists v :: v in db.workers && v != w && db.workers[v].state.Online?
  }

  /** Remove a server from the network, keeping its videos: refused while it is draining already or
      when no other server is online. */
  ghost function Redistribute(db: DB, w: nat): DB {
    if w !in db.workers || db.workers[w].state.Draining? || !OtherOnline(db, w) then db
    else
      match StartDrain(db, w)
      case None => db
      case Some(d) => if Unmigrated(d.tables, w) == {} then Purge(d, w) else d
  }

  lemma RedistributeCases(db: DB, w: nat)
    ensures Redistribute(db, w) == db
         || (w in db.workers && StartDrain(db, w).Some? &&
             (Redistribute(db, w) == StartDrain(db, w).value
              || (Unmigrated(StartDrain(db, w).value.tables, w) == {}
                  && Redistribute(db, w) == Purge(StartDrain(db, w).value, w))))
  {
  }
}
