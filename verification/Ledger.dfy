/** What the database looks like while agents are honest: which identifiers are reported, in hand, or
    still uncut, and how chunks, items and history fit together. */
module Ledger {
  import opened Rows
  import opened Catalogue
  import opened Database
  import opened Chunking
  import opened SchedulerSpec
  import opened LeaseSafety

  /** First identifier of a job whose work is cut on demand. */
  function FirstId(job: Job): int {
    if job.targets == [] then (if job.lo.Some? then job.lo.value else 0)
    else if HasOpenEnded(job.targets) then FirstOpen(job.targets).lo
    else 0
  }

  /** Its last identifier; None when it is open-ended. */
  function LastId(job: Job): Option<int> {
    if job.targets == [] then job.hi else None
  }

  /** The identifiers a job has to process. */
  ghost predicate Universe(job: Job, x: int) {
    if Lazy(job) then FirstId(job) <= x && (LastId(job).Some? ==> x <= LastId(job).value)
    else Wanted(job.targets, x)
  }

  predicate OpenEndedJob(job: Job) {
    Lazy(job) && LastId(job).None?
  }

  /** The job's input does not name the identifier twice. */
  ghost predicate SeparateAt(job: Job, x: int) {
    Lazy(job) || Once(job.targets, x)
  }

  /** It names no identifier twice. */
  ghost predicate Separate(job: Job) {
    Lazy(job) || Disjoint(job.targets)
  }

  ghost predicate InHand(db: DB, j: nat, x: int) {
    exists c :: c in db.chunks && db.chunks[c].job == j && db.chunks[c].Todo(x)
  }

  /** Not cut into a chunk yet (for a job cut on demand). */
  predicate Uncut(job: Job, x: int) {
    job.cursor.Some? && job.cursor.value <= x
  }

  ghost predicate ShapedChunk(ch: Chunk) {
    && ch.lo <= ch.hi && ch.lo <= ch.next <= ch.hi + 1
    && (ch.status.Completed? ==> ch.next == ch.hi + 1)
  }

  ghost predicate Shaped(db: DB) {
    forall c :: c in db.chunks ==> ShapedChunk(db.chunks[c])
  }

  /** A job that has not started has no work, items or cuts; one that has started has its cursor (if it
      is cut on demand) beyond all its chunks and items. */
  ghost predicate BegunJob(db: DB, j: nat)
    requires j in db.jobs
  {
    var job := db.jobs[j];
    && job.size >= 1
    && (job.state.Created? || !Lazy(job) ==> job.cursor.None?)
    && (job.state.Created? ==>
          && (forall c :: c in db.chunks ==> db.chunks[c].job != j)
          && (forall k :: k in db.tables.items ==> k.job != j)
          && CutUpTo(db.log, j, FirstId(job)) == Some(FirstId(job)))
    && (!job.state.Created? && Lazy(job) ==>
          && job.cursor.Some? && FirstId(job) <= job.cursor.value && job.hi == LastId(job)
          && (forall c :: c in db.chunks && db.chunks[c].job == j ==> db.chunks[c].hi < job.cursor.value)
          && (forall k :: k in db.tables.items && k.job == j ==> k.id < job.cursor.value)
          && CutUpTo(db.log, j, FirstId(job)) == job.cursor)
  }

  ghost predicate Begun(db: DB) {
    forall j :: j in db.jobs ==> BegunJob(db, j)
  }

  /** Every identifier of a started job was reported, is in hand, or is still uncut. */
  ghost predicate Covered(db: DB) {
    forall j, x :: j in db.jobs && !db.jobs[j].state.Created? && Universe(db.jobs[j], x) ==>
      Reported(db.log, j, x) || InHand(db, j, x) || Uncut(db.jobs[j], x)
  }

  /** No identifier that its job names once is in hand twice. */
  ghost predicate Exclusive(db: DB) {
    forall c, d, x ::
      c in db.chunks && d in db.chunks && c != d && db.chunks[c].job == db.chunks[d].job
      && db.chunks[c].job in db.jobs && SeparateAt(db.jobs[db.chunks[c].job], x) && db.chunks[c].Todo(x)
      ==> !db.chunks[d].Todo(x)
  }

  ghost predicate Unresolved(t: Tables, k: Key) {
    k in t.items ==> t.items[k].status.Pending?
  }

  /** An identifier in hand that its job names once has no result, or one that was re-queued. */
  ghost predicate Unsettled(db: DB) {
    forall c, x ::
      c in db.chunks && db.chunks[c].job in db.jobs && SeparateAt(db.jobs[db.chunks[c].job], x) && db.chunks[c].Todo(x)
      ==> Unresolved(db.tables, Key(db.chunks[c].job, x))
  }

  /** The identifiers recorded for a chunk are exactly its start up to its checkpoint, in order. */
  ghost predicate Tiled(db: DB) {
    forall c :: c in db.chunks && db.chunks[c].lo <= db.chunks[c].next ==>
      Recorded(db.log, c) == Consecutive(db.chunks[c].lo, db.chunks[c].next)
  }

  /** A completed job is not open-ended, and every identifier of it was reported. */
  ghost predicate ConcludedJob(db: DB, j: nat)
    requires j in db.jobs
  {
    db.jobs[j].state.Completed? ==>
      !OpenEndedJob(db.jobs[j]) && forall x :: Universe(db.jobs[j], x) ==> Reported(db.log, j, x)
  }

  ghost predicate Concluded(db: DB) {
    forall j :: j in db.jobs ==> ConcludedJob(db, j)
  }

  /** Nothing outside a job's input is handed out, recorded, or reported. */
  ghost predicate Within(db: DB) {
    && (forall c, x ::
          c in db.chunks && db.chunks[c].job in db.jobs && db.chunks[c].Spans(x)
          ==> Universe(db.jobs[db.chunks[c].job], x))
    && (forall k :: k in db.tables.items && k.job in db.jobs ==> Universe(db.jobs[k.job], k.id))
    && (forall j, x :: j in db.jobs && Reported(db.log, j, x) ==> Universe(db.jobs[j], x))
  }

  ghost predicate Orderly(db: DB) {
    && Safe(db) && Shaped(db) && Begun(db) && Covered(db) && Exclusive(db) && Unsettled(db) && Tiled(db)
    && Concluded(db) && Within(db)
  }

  // ---- Steps that move no identifier -------------------------------------------------------------

  predicate QuietJob(x: Job, y: Job) {
    && y.lo == x.lo && y.hi == x.hi && y.cursor == x.cursor && y.size == x.size && y.targets == x.targets
    && (y.state.Created? <==> x.state.Created?)
  }

  predicate QuietChunk(x: Chunk, y: Chunk) {
    SameRange(x, y) && y.next == x.next && (y.Open() <==> x.Open()) && (y.status.Completed? <==> x.status.Completed?)
  }

  /** Only grants were logged. */
  ghost predicate QuietLog(log: seq<Event>, after: seq<Event>) {
    after == log || (exists e: Event :: e.Granted? && after == log + [e])
  }

  /** Chunks keep their ranges and checkpoints and stay open or closed, jobs keep their work, items
      keep their state of being re-queued; jobs with all their rows may go. */
  ghost predicate Quiet(db: DB, after: DB) {
    && after.nextChunk == db.nextChunk && after.nextJob == db.nextJob
    && (forall j :: j in after.jobs ==> j in db.jobs && QuietJob(db.jobs[j], after.jobs[j]))
    && (forall c :: c in after.chunks ==> c in db.chunks && QuietChunk(db.chunks[c], after.chunks[c]))
    && (forall c :: c in db.chunks && db.chunks[c].job in after.jobs ==> c in after.chunks)
    && (forall k :: k in after.tables.items ==>
          k in db.tables.items && (db.tables.items[k].status.Pending? ==> after.tables.items[k].status.Pending?))
    && QuietLog(db.log, after.log)
  }

  lemma {:induction false} QuietLogMeans(log: seq<Event>, after: seq<Event>)
    requires QuietLog(log, after)
    ensures forall j, x :: Reported(log, j, x) <==> Reported(after, j, x)
    ensures forall c :: Recorded(after, c) == Recorded(log, c)
    ensures forall j, a :: CutUpTo(after, j, a) == CutUpTo(log, j, a)
  {
    if after != log {
      var e: Event :| e.Granted? && after == log + [e];
      AppendEvent(log, e);
      forall j, x ensures Reported(log, j, x) <==> Reported(after, j, x) { ReportedAppend(log, e, j, x); }
    }
  }

  lemma QuietBegun(db: DB, after: DB)
    requires Begun(db) && Quiet(db, after)
    ensures Begun(after)
  {
    QuietLogMeans(db.log, after.log);
    forall j | j in after.jobs ensures BegunJob(after, j) {
      assert BegunJob(db, j);
    }
  }

  lemma QuietCovered(db: DB, after: DB)
    requires Covered(db) && Quiet(db, after)
    ensures Covered(after)
  {
    QuietLogMeans(db.log, after.log);
    forall j, x | j in after.jobs && !after.jobs[j].state.Created? && Universe(after.jobs[j], x)
      ensures Reported(after.log, j, x) || InHand(after, j, x) || Uncut(after.jobs[j], x)
    {
      assert Universe(db.jobs[j], x);
      if InHand(db, j, x) {
        var c :| c in db.chunks && db.chunks[c].job == j && db.chunks[c].Todo(x);
        assert c in after.chunks && after.chunks[c].Todo(x);
      }
    }
  }

  lemma QuietTodo(db: DB, after: DB)
    requires Quiet(db, after)
    ensures Exclusive(db) ==> Exclusive(after)
    ensures Unsettled(db) ==> Unsettled(after)
  {
    forall c, x | c in after.chunks ensures after.chunks[c].Todo(x) <==> db.chunks[c].Todo(x) {}
  }

  lemma QuietWithin(db: DB, after: DB)
    requires Within(db) && Quiet(db, after)
    ensures Within(after)
  {
    QuietLogMeans(db.log, after.log);
    forall c, x | c in after.chunks && after.chunks[c].job in after.jobs && after.chunks[c].Spans(x)
      ensures Universe(after.jobs[after.chunks[c].job], x)
    {
      assert db.chunks[c].Spans(x);
    }
  }

  lemma QuietTiled(db: DB, after: DB)
    requires Tiled(db) && Quiet(db, after)
    ensures Tiled(after)
  {
    QuietLogMeans(db.log, after.log);
  }

  /** A quiet step keeps everything but conclusions. */
  lemma QuietKeeps(db: DB, after: DB)
    requires Orderly(db) && Quiet(db, after) && Safe(after)
    requires Concluded(after)
    ensures Orderly(after)
  {
    QuietBegun(db, after);
    QuietCovered(db, after);
    QuietTodo(db, after);
    QuietTiled(db, after);
    QuietWithin(db, after);
  }

  lemma QuietConcluded(db: DB, after: DB)
    requires Concluded(db) && Quiet(db, after)
    requires forall j :: j in after.jobs && after.jobs[j].state.Completed? ==> db.jobs[j].state.Completed?
    ensures Concluded(after)
  {
    QuietLogMeans(db.log, after.log);
    forall j | j in after.jobs ensures ConcludedJob(after, j) {
      assert ConcludedJob(db, j);
    }
  }
}
