/** The coordinator's database as one value, and the history of what it accepted. */
module Database {
  import opened Rows
  import opened Catalogue

  /** What happened, in order. The history is not a table: rows are deleted, events are not. */
  datatype Event =
    | Cut(chunk: nat, job: nat, lo: int, hi: int)
    | Granted(chunk: nat, job: nat, worker: nat)
    | Accepted(chunk: nat, job: nat, worker: nat, ids: seq<int>, next: int)
    | Requeued(chunk: nat, job: nat)

  datatype DB = DB(
    jobs: map<nat, Job>,
    chunks: map<nat, Chunk>,
    tables: Tables,
    workers: map<nat, Worker>,
    nextJob: nat,
    nextChunk: nat,
    nextWorker: nat,
    now: int,
    log: seq<Event>)

  const EMPTY: DB := DB(map[], map[], Tables(map[], map[], map[], map[], {}, 0, 0), map[], 0, 0, 0, 0, [])

  /** The UNIQUE constraint on (job, range_start, range_end). */
  predicate SameRange(x: Chunk, y: Chunk) {
    x.job == y.job && x.lo == y.lo && x.hi == y.hi
  }

  ghost predicate UniqueRanges(chunks: map<nat, Chunk>) {
    forall c, d :: c in chunks && d in chunks && SameRange(chunks[c], chunks[d]) ==> c == d
  }

  /** Would inserting `rows` violate the constraint? */
  ghost predicate Clash(chunks: map<nat, Chunk>, rows: seq<Chunk>) {
    || (exists c, i :: c in chunks && 0 <= i < |rows| && SameRange(chunks[c], rows[i]))
    || (exists i, k :: 0 <= i < k < |rows| && SameRange(rows[i], rows[k]))
  }

  /** New rows get consecutive primary keys from `first` on. */
  function Inserted(chunks: map<nat, Chunk>, first: nat, rows: seq<Chunk>): map<nat, Chunk> {
    if rows == [] then chunks
    else Inserted(chunks, first, rows[..|rows| - 1])[first + |rows| - 1 := rows[|rows| - 1]]
  }

  lemma {:induction false} InsertedRows(chunks: map<nat, Chunk>, first: nat, rows: seq<Chunk>)
    requires forall c :: c in chunks ==> c < first
    ensures forall c :: c in Inserted(chunks, first, rows) <==> c in chunks || first <= c < first + |rows|
    ensures forall c :: c in Inserted(chunks, first, rows) ==>
              Inserted(chunks, first, rows)[c] == if c < first then chunks[c] else rows[c - first]
  {
    if rows != [] {
      InsertedRows(chunks, first, rows[..|rows| - 1]);
    }
  }

  /** The identifier `x` of job `j` was contained in some accepted progress report. */
  ghost predicate Reported(log: seq<Event>, j: nat, x: int) {
    exists i :: 0 <= i < |log| && log[i].Accepted? && log[i].job == j && Lists(log[i].ids, x)
  }

  ghost predicate Lists(ids: seq<int>, x: int) {
    exists k :: 0 <= k < |ids| && ids[k] == x
  }

  /** The identifiers recorded for a chunk since it was cut or last re-queued, in order of acceptance. */
  function Recorded(log: seq<Event>, c: nat): seq<int> {
    if log == [] then []
    else
      var e := log[|log| - 1];
      var before := Recorded(log[..|log| - 1], c);
      if e.chunk != c then before
      else match e
        case Accepted(_, _, _, ids, _) => before + ids
        case Requeued(_, _) => []
        case _ => before
  }

  /** The last worker a chunk was granted to. */
  function LastGrantee(log: seq<Event>, c: nat): Option<nat> {
    if log == [] then None
    else
      var e := log[|log| - 1];
      if e.Granted? && e.chunk == c then Some(e.worker) else LastGrantee(log[..|log| - 1], c)
  }

  /** How many progress reports were accepted for a chunk. */
  function AcceptedFor(log: seq<Event>, c: nat): nat {
    if log == [] then 0
    else
      var e := log[|log| - 1];
      AcceptedFor(log[..|log| - 1], c) + if e.Accepted? && e.chunk == c then 1 else 0
  }

  /** How many progress reports were accepted for a job. */
  function AcceptedOf(log: seq<Event>, j: nat): nat {
    if log == [] then 0
    else
      var e := log[|log| - 1];
      AcceptedOf(log[..|log| - 1], j) + if e.Accepted? && e.job == j then 1 else 0
  }

  /** How many leases of a job's chunks were granted. */
  function GrantedOf(log: seq<Event>, j: nat): nat {
    if log == [] then 0
    else
      var e := log[|log| - 1];
      GrantedOf(log[..|log| - 1], j) + if e.Granted? && e.job == j then 1 else 0
  }

  /** Reading the cut events of a job in order from `start`: where the cursor must stand now, or None
      when some cut did not begin where the previous one ended. */
  function CutUpTo(log: seq<Event>, j: nat, start: int): Option<int> {
    if log == [] then Some(start)
    else
      var e := log[|log| - 1];
      var before := CutUpTo(log[..|log| - 1], j, start);
      if e.Cut? && e.job == j then
        if before == Some(e.lo) && e.lo <= e.hi then Some(e.hi + 1) else None
      else before
  }

  lemma AppendEvent(log: seq<Event>, e: Event)
    ensures (log + [e])[..|log + [e]| - 1] == log
    ensures (log + [e])[|log + [e]| - 1] == e
  {
  }

  /** Appending one event adds exactly the identifiers of an accepted report. */
  lemma ReportedAppend(log: seq<Event>, e: Event, j: nat, x: int)
    ensures Reported(log + [e], j, x) <==> Reported(log, j, x) || (e.Accepted? && e.job == j && Lists(e.ids, x))
  {
    var after := log + [e];
    if Reported(log, j, x) {
      var i :| 0 <= i < |log| && log[i].Accepted? && log[i].job == j && Lists(log[i].ids, x);
      assert after[i] == log[i];
    }
    if e.Accepted? && e.job == j && Lists(e.ids, x) {
      assert after[|log|] == e;
    }
    if Reported(after, j, x) {
      var i :| 0 <= i < |after| && after[i].Accepted? && after[i].job == j && Lists(after[i].ids, x);
      if i < |log| { assert log[i] == after[i]; }
    }
  }

  function Consecutive(lo: int, hi: int): (r: seq<int>)
    requires lo <= hi
  {
    seq(hi - lo, i requires 0 <= i < hi - lo => lo + i)
  }
}
