/** How chunks change hands: what a request for work is answered, and what the holder's messages do to
    its chunk and its job, spelled out over the rows. */
module Handout {
  import opened Rows
  import opened Catalogue
  import opened Database
  import opened SchedulerSpec
  import opened Requests
  import opened LeaseSafety

  /** The job runs, and is nobody's or the worker's own. */
  predicate OpenTo(db: DB, w: nat, j: nat) {
    j in db.jobs && db.jobs[j].state == JobState.Running && (db.jobs[j].owner == None || db.jobs[j].owner == Some(w))
  }

  /** The chunk's lease ended before now. */
  predicate Overdue(db: DB, c: nat) {
    && c in db.chunks && db.chunks[c].status == ChunkStatus.Leased
    && match db.chunks[c].expires
       case Some(end) => end < db.now
       case None => false
  }

  /** The chunk is free, or its lease is over, and the worker may work on its job. */
  predicate Ready(db: DB, w: nat, c: nat) {
    c in db.chunks && (db.chunks[c].status == ChunkStatus.Pending || Overdue(db, c)) && OpenTo(db, w, db.chunks[c].job)
  }

  /** The job's cursor has not passed its end, and the worker may work on it. */
  predicate Rest(db: DB, w: nat, j: nat) {
    && OpenTo(db, w, j)
    && match (db.jobs[j].cursor, db.jobs[j].hi)
       case (None, _) => false
       case (Some(at), None) => true
       case (Some(at), Some(hi)) => at <= hi
  }

  /** A draining server and one with less than five gigabytes left get no work. */
  predicate Unfit(row: Worker) {
    row.state == WorkerState.Draining || match row.free case None => false case Some(gb) => gb < 5.0
  }

  /** The chunk as it stands once overdue leases are ended: free again, with one more attempt. */
  function Ended(db: DB, c: nat): Chunk
    requires c in db.chunks
  {
    var ch := db.chunks[c];
    if Overdue(db, c)
    then Chunk(ch.job, ch.lo, ch.hi, ch.next, ch.url, ChunkStatus.Pending, None, None, ch.attempt + 1)
    else ch
  }

  /** The same chunk, leased. */
  predicate LeasedAs(before: Chunk, after: Chunk, w: nat, until: int) {
    after == Chunk(before.job, before.lo, before.hi, before.next, before.url,
                   ChunkStatus.Leased, Some(w), Some(until), before.attempt)
  }

  /** A fresh chunk that starts at the job's cursor and has as many identifiers as the job's chunk size
      says, fewer only where the job ends; the cursor moves to the identifier after it. */
  predicate CutAs(job: Job, after: Job, ch: Chunk, j: nat) {
    && job.cursor == Some(ch.lo) && ch.job == j && ch.next == ch.lo && ch.url == None && ch.attempt == 0
    && after == job.(cursor := Some(ch.hi + 1))
    && match job.hi
       case None => ch.hi - ch.lo + 1 == job.size
       case Some(hi) => ch.hi <= hi && ch.hi - ch.lo + 1 <= job.size && (ch.hi < hi ==> ch.hi - ch.lo + 1 == job.size)
  }

  lemma ReclaimEnds(db: DB, c: nat)
    requires c in db.chunks
    ensures c in ReclaimExpired(db).chunks && ReclaimExpired(db).chunks[c] == Ended(db, c)
  {
  }

  lemma TakeableIsReady(db: DB, w: nat, c: nat)
    ensures c in Takeable(ReclaimExpired(db), w) <==> Ready(db, w, c)
  {
    if c in db.chunks { ReclaimEnds(db, c); }
  }

  lemma CuttableHasRest(db: DB, w: nat, j: nat)
    ensures j in Cuttable(ReclaimExpired(db), w) <==> Rest(db, w, j)
  {
  }

  /** A worker is sent away exactly when it is draining or short of space, or nothing is ready and no job
      has a rest to cut. */
  lemma SentAway(db: DB, w: nat, seconds: int)
    requires w in db.workers
    ensures Lease(db, w, seconds).1 == NoWork <==>
              Unfit(db.workers[w]) || ((forall c: nat :: !Ready(db, w, c)) && (forall j: nat :: !Rest(db, w, j)))
  {
    hide Takeable, Cuttable, ReclaimExpired, Ready, Rest;
    var d := ReclaimExpired(db);
    WorkersStay(db);
    forall c: nat ensures c in Takeable(d, w) <==> Ready(db, w, c) { TakeableIsReady(db, w, c); }
    forall j: nat ensures j in Cuttable(d, w) <==> Rest(db, w, j) { CuttableHasRest(db, w, j); }
    if Takeable(d, w) != {} { assert Ready(db, w, Least(Takeable(d, w))); }
    if Cuttable(d, w) != {} { assert Rest(db, w, Least(Cuttable(d, w))); }
    if Takeable(d, w) == {} { forall c: nat ensures !Ready(db, w, c) { assert c !in Takeable(d, w); } }
    if Cuttable(d, w) == {} { forall j: nat ensures !Rest(db, w, j) { assert j !in Cuttable(d, w); } }
  }

  lemma ReadyIsThere(db: DB, w: nat, c: nat)
    requires Ready(db, w, c)
    ensures c in db.chunks
  {
  }

  lemma PieceIsCut(job: Job, j: nat, w: nat, until: int)
    requires HasUncut(job)
    ensures var piece := NextPiece(j, job);
            var ch := piece.(status := ChunkStatus.Leased, holder := Some(w), expires := Some(until));
            CutAs(job, job.(cursor := Some(piece.hi + 1)), ch, j)
  {
  }

  lemma RestIsUncut(db: DB, w: nat, j: nat)
    requires Rest(db, w, j)
    ensures j in db.jobs && HasUncut(db.jobs[j])
  {
  }

  lemma WorkersStay(db: DB)
    ensures ReclaimExpired(db).workers == db.workers && ReclaimExpired(db).now == db.now
            && ReclaimExpired(db).jobs == db.jobs && ReclaimExpired(db).nextChunk == db.nextChunk
            && ReclaimExpired(db).chunks.Keys == db.chunks.Keys
  {
  }

  /** A chunk that was there is given only if it is the first that is ready, and is leased as it stands. */
  lemma GivesTheFirstReady(db: DB, w: nat, seconds: int, c: nat)
    requires Safe(db) && w in db.workers && Lease(db, w, seconds).1 == Given(c) && c in db.chunks
    ensures var after := Lease(db, w, seconds).0;
            && Ready(db, w, c) && (forall d: nat :: Ready(db, w, d) ==> c <= d)
            && after.jobs == db.jobs && after.chunks.Keys == db.chunks.Keys
            && LeasedAs(Ended(db, c), after.chunks[c], w, db.now + seconds)
            && (forall d :: d in db.chunks && d != c ==> after.chunks[d] == Ended(db, d))
  {
    hide Takeable, Cuttable, ReclaimExpired, Ready, Linked, Coherent, UniqueRanges, Clash, Ended;
    var d := ReclaimExpired(db);
    WorkersStay(db);
    ChunksBelow(db);
    TakeableIsReady(db, w, c);
    forall e: nat | Ready(db, w, e) ensures c <= e { TakeableIsReady(db, w, e); }
    forall e | e in db.chunks ensures d.chunks[e] == Ended(db, e) { ReclaimEnds(db, e); }
  }

  /** Only when no chunk is ready is a new one cut, from the first job that has a rest. */
  lemma CutsFromTheFirstJob(db: DB, w: nat, seconds: int, c: nat)
    requires Safe(db) && w in db.workers && Lease(db, w, seconds).1 == Given(c) && c !in db.chunks
    ensures var after := Lease(db, w, seconds).0;
            && (forall d: nat :: !Ready(db, w, d))
            && c in after.chunks && after.chunks.Keys == db.chunks.Keys + {c}
            && var j := after.chunks[c].job;
               Rest(db, w, j) && (forall i: nat :: Rest(db, w, i) ==> j <= i)
               && j in after.jobs && after.jobs == db.jobs[j := after.jobs[j]]
               && CutAs(db.jobs[j], after.jobs[j], after.chunks[c], j)
               && LeasedAs(after.chunks[c], after.chunks[c], w, db.now + seconds)
               && (forall d :: d in db.chunks ==> after.chunks[d] == Ended(db, d))
  {
    hide Takeable, Cuttable, ReclaimExpired, Ready, Rest, Linked, Coherent, UniqueRanges, Clash, Ended, CutAs, NextPiece;
    var d := ReclaimExpired(db);
    WorkersStay(db);
    ChunksBelow(db);
    forall e: nat ensures e in Takeable(d, w) <==> Ready(db, w, e) { TakeableIsReady(db, w, e); }
    if Takeable(d, w) != {} { ReadyIsThere(db, w, Least(Takeable(d, w))); }
    forall e: nat ensures !Ready(db, w, e) { assert e !in Takeable(d, w); }
    var j := Least(Cuttable(d, w));
    CuttableHasRest(db, w, j);
    forall i: nat | Rest(db, w, i) ensures j <= i { CuttableHasRest(db, w, i); }
    RestIsUncut(db, w, j);
    PieceIsCut(d.jobs[j], j, w, db.now + seconds);
    forall e | e in db.chunks ensures d.chunks[e] == Ended(db, e) { ReclaimEnds(db, e); }
  }

  // ---- The holder's messages ---------------------------------------------------------------------

  predicate Runs(db: DB, j: nat) {
    j in db.jobs && db.jobs[j].state == JobState.Running
  }

  /** A report moves the checkpoint, but never back. While the job runs the holder keeps the chunk for 120
      seconds more and is told to go on; otherwise the chunk goes back and the holder is told to stop. */
  lemma ReportMovesTheChunk(db: DB, w: nat, c: nat, next: int, rs: seq<Result>)
    requires w in db.workers && HasLease(db, w, c)
    ensures var ch := db.chunks[c];
            var (after, reply) := Progress(db, w, c, next, rs);
            var at := if next < ch.next then ch.next else next;
            && Apply(db, Report(w, c, next, rs)) == after && reply == Stored(Runs(db, ch.job))
            && after.jobs == db.jobs
            && after.chunks == db.chunks[c :=
                 if Runs(db, ch.job)
                 then Chunk(ch.job, ch.lo, ch.hi, at, ch.url, ChunkStatus.Leased, Some(w), Some(db.now + 120), ch.attempt)
                 else Chunk(ch.job, ch.lo, ch.hi, at, ch.url, ChunkStatus.Pending, None, None, ch.attempt)]
  {
    hide RecordAll;
    var ch := db.chunks[c];
    assert ch == Chunk(ch.job, ch.lo, ch.hi, ch.next, ch.url, ch.status, ch.holder, ch.expires, ch.attempt);
  }

  /** Everyone else's report is refused: the chunk is unknown, or is not the sender's. */
  lemma ReportRefused(db: DB, w: nat, c: nat, next: int, rs: seq<Result>)
    requires w in db.workers && !HasLease(db, w, c)
    ensures Progress(db, w, c, next, rs) == (db, if c in db.chunks then Stale else Missing)
  {
  }

  /** No piece of the job is left to hand out: its cursor, if it has one, has passed its end, and every
      other chunk of it is completed or failed. */
  predicate NothingLeft(db: DB, j: nat, c: nat) {
    && j in db.jobs
    && (forall d :: d in db.chunks && d != c && db.chunks[d].job == j ==>
          db.chunks[d].status == ChunkStatus.Completed || db.chunks[d].status == ChunkStatus.Failed)
    && match (db.jobs[j].cursor, db.jobs[j].hi)
       case (None, _) => true
       case (Some(_), None) => false
       case (Some(at), Some(hi)) => at > hi
  }

  /** When the holder completes its chunk, the chunk is done where it stands, and its running job is
      completed exactly when that was the last piece of it. */
  lemma CompletionEndsTheChunk(db: DB, w: nat, c: nat)
    requires w in db.workers && HasLease(db, w, c)
    ensures var ch, after := db.chunks[c], Apply(db, Complete(w, c, ChunkStatus.Completed));
            && after == db.(chunks := after.chunks, jobs := after.jobs)
            && after.chunks == db.chunks[c := Chunk(ch.job, ch.lo, ch.hi, ch.next, ch.url, ChunkStatus.Completed, None, None, ch.attempt)]
            && after.jobs == if Runs(db, ch.job) && NothingLeft(db, ch.job, c)
                             then db.jobs[ch.job := db.jobs[ch.job].(state := JobState.Completed)] else db.jobs
  {
    hide Finishable;
    var ch := db.chunks[c];
    var d := CompleteChunk(db, w, c, ChunkStatus.Completed).0;
    assert d.chunks[c] == Chunk(ch.job, ch.lo, ch.hi, ch.next, ch.url, ChunkStatus.Completed, None, None, ch.attempt);
    LastPiece(db, d, c);
  }

  lemma LastPiece(db: DB, d: DB, c: nat)
    requires c in db.chunks && d.jobs == db.jobs && d.chunks.Keys == db.chunks.Keys
    requires forall e :: e in db.chunks && e != c ==> d.chunks[e] == db.chunks[e]
    requires d.chunks[c].job == db.chunks[c].job && !d.chunks[c].Open()
    ensures Finishable(d, db.chunks[c].job) <==> Runs(db, db.chunks[c].job) && NothingLeft(db, db.chunks[c].job, c)
  {
    var j := db.chunks[c].job;
    assert c in d.chunks && HasChunk(d, j);
    if HasOpenChunk(d, j) {
      var e :| e in d.chunks && d.chunks[e].job == j && d.chunks[e].Open();
      assert e in db.chunks.Keys && !NothingLeft(db, j, c);
    }
    if Finishable(d, j) {
      forall e | e in db.chunks && e != c && db.chunks[e].job == j
        ensures db.chunks[e].status.Completed? || db.chunks[e].status.Failed?
      {
        assert e in d.chunks.Keys;
      }
    }
  }

  /** A chunk its holder fails, or ends in any other way, goes back with one more attempt, its checkpoint kept. */
  lemma FailureReturnsTheChunk(db: DB, w: nat, c: nat, status: ChunkStatus)
    requires w in db.workers && HasLease(db, w, c) && status != ChunkStatus.Completed
    ensures var ch := db.chunks[c];
            && CompleteChunk(db, w, c, status).1 == Done
            && Apply(db, Fail(w, c)).chunks == Apply(db, Complete(w, c, status)).chunks
            && Apply(db, Fail(w, c)) == db.(chunks :=
                 db.chunks[c := Chunk(ch.job, ch.lo, ch.hi, ch.next, ch.url, ChunkStatus.Pending, None, None, ch.attempt + 1)])
  {
    var ch := db.chunks[c];
    assert ch == Chunk(ch.job, ch.lo, ch.hi, ch.next, ch.url, ch.status, ch.holder, ch.expires, ch.attempt);
  }

  /** Completing a completed chunk again is accepted and changes nothing about it; nobody else's completion
      or failure is accepted. */
  lemma CompletionRefused(db: DB, w: nat, c: nat, status: ChunkStatus)
    requires !HasLease(db, w, c)
    ensures CompleteChunk(db, w, c, status) ==
            (db, if c !in db.chunks then NoChunk
                 else if status == ChunkStatus.Completed && db.chunks[c].status == ChunkStatus.Completed then Done
                 else Fenced)
  {
  }

  /** The sweeper completes a running job exactly when it has no open chunk and its cursor has passed its
      end, or it has no cursor and has chunks. */
  lemma SweepCompletes(db: DB, j: nat)
    ensures Apply(db, SweepJob(j)) ==
            if Runs(db, j)
               && (forall c :: c in db.chunks && db.chunks[c].job == j ==>
                     db.chunks[c].status == ChunkStatus.Completed || db.chunks[c].status == ChunkStatus.Failed)
               && (match (db.jobs[j].cursor, db.jobs[j].hi)
                   case (None, _) => exists c :: c in db.chunks && db.chunks[c].job == j
                   case (Some(_), None) => false
                   case (Some(at), Some(hi)) => at > hi)
            then db.(jobs := db.jobs[j := db.jobs[j].(state := JobState.Completed)]) else db
  {
    if HasOpenChunk(db, j) {
      var c :| c in db.chunks && db.chunks[c].job == j && db.chunks[c].Open();
    } else {
      forall c | c in db.chunks && db.chunks[c].job == j
        ensures db.chunks[c].status.Completed? || db.chunks[c].status.Failed?
      {
      }
    }
  }
}
