/** The rows the coordinator keeps, as values: jobs, chunks, workers, and the enumerations
    stored in their status columns. */
module Rows {

  datatype Option<+T> = None | Some(value: T)

  datatype JobState =
    Created | Validating | Running | Pausing | Paused | Stopping | Stopped | Completed | Failed

  datatype ChunkStatus = Pending | Leased | Completed | Failed

  datatype ItemStatus =
    | Pending | Checking | NotFound | Found | DownloadQueued | Downloading | Completed
    | Skipped | Forbidden | RateLimited | RetryWait | Failed | Cancelled

  datatype WorkerState = Online | Degraded | Offline | Draining

  /** One input of a job: a numeric range (no upper end means open-ended) or one video by its link. */
  datatype Target = Span(lo: int, hi: Option<int>) | Link(id: int, url: string)

  datatype Job = Job(
    source: string,
    lo: Option<int>,
    hi: Option<int>,
    cursor: Option<int>,      // next identifier from which a fresh chunk is cut
    size: int,
    owner: Option<nat>,
    group: Option<nat>,
    state: JobState,
    targets: seq<Target>)

  datatype Chunk = Chunk(
    job: nat,
    lo: int,
    hi: int,
    next: int,                // checkpoint: everything below it has been reported
    url: Option<string>,
    status: ChunkStatus,
    holder: Option<nat>,
    expires: Option<int>,
    attempt: nat)
  {
    predicate Open() {
      status.Pending? || status.Leased?
    }

    predicate Spans(x: int) {
      lo <= x <= hi
    }

    /** The identifiers this chunk still hands out. */
    predicate Todo(x: int) {
      Open() && next <= x <= hi
    }

    function Released(): Chunk {
      this.(status := ChunkStatus.Pending, holder := None, expires := None)
    }
  }

  datatype Worker = Worker(name: string, state: WorkerState, beat: Option<int>, free: Option<real>)

  function Min(a: int, b: int): int { if a <= b then a else b }

  function Max(a: int, b: int): int { if a <= b then b else a }

  function MinReal(a: real, b: real): real { if a <= b then a else b }

  function MaxReal(a: real, b: real): real { if a <= b then b else a }

  /** A non-empty finite set of row ids has a least element. */
  lemma LeastExists(s: set<nat>) returns (m: nat)
    requires s != {}
    ensures m in s && forall x :: x in s ==> m <= x
    decreases |s|
  {
    var y :| y in s;
    m := y;
    var rest := s - {y};
    if rest != {} {
      var k := LeastExists(rest);
      m := if k < y then k else y;
    }
    forall x | x in s ensures m <= x {
      assert x == y || x in rest;
    }
  }

  /** The row a query with ORDER BY id LIMIT 1 returns. */
  function Least(s: set<nat>): (m: nat)
    requires s != {}
    ensures m in s
    ensures forall x :: x in s ==> m <= x
  {
    assert exists m :: m in s && forall x :: x in s ==> m <= x by {
      var m := LeastExists(s);
    }
    var m :| m in s && forall x :: x in s ==> m <= x;
    m
  }
}
