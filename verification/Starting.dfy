/** What a user's lifecycle commands do to a job: the table of transitions, and the work a first start cuts. */
module Starting {
  import opened Rows
  import opened Database
  import opened Chunking
  import opened SchedulerSpec
  import opened Requests
  import opened LeaseSafety

  // ---- The lifecycle -----------------------------------------------------------------------------

  /** Where a command takes a job that has been started before, from each state that accepts it. */
  function Becomes(command: Command, state: JobState): Option<JobState> {
    match (command, state)
    case (Start, Paused) => Some(JobState.Running)
    case (Start, Stopped) => Some(JobState.Running)
    case (Pause, Running) => Some(JobState.Paused)
    case (Resume, Paused) => Some(JobState.Running)
    case (Stop, Running) => Some(JobState.Stopped)
    case (Stop, Paused) => Some(JobState.Stopped)
    case (Stop, Pausing) => Some(JobState.Stopped)
    case _ => None
  }

  /** A command moves the job along the table, and does nothing where the table has no transition. */
  lemma CommandsFollowTheTable(db: DB, j: nat, command: Command)
    requires j in db.jobs && !(command.Start? && db.jobs[j].state.Created?)
    ensures Apply(db, Control(j, command)) ==
            match Becomes(command, db.jobs[j].state)
            case Some(state) => db.(jobs := db.jobs[j := db.jobs[j].(state := state)])
            case None => db
  {
  }

  /** A range that is not reversed; one with an end has a start. */
  predicate ProperRange(lo: Option<int>, hi: Option<int>) {
    match (lo, hi)
    case (_, None) => true
    case (None, Some(_)) => false
    case (Some(a), Some(b)) => a <= b
  }

  /** A new job is stored under a fresh id exactly when its range is proper, its chunks have room for an
      identifier, and the server it is reserved for exists. */
  lemma CreatingAJob(db: DB, job: Job)
    requires job.state.Created? && job.cursor.None?
    ensures Apply(db, CreateJob(job)) ==
            if ProperRange(job.lo, job.hi) && job.size > 0
               && (match job.owner case None => true case Some(w) => w in db.workers)
            then db.(jobs := db.jobs[db.nextJob := job], nextJob := db.nextJob + 1) else db
  {
  }

  // ---- Lazy starts -------------------------------------------------------------------------------

  lemma {:induction false} FirstOpenIs(targets: seq<Target>, i: nat)
    requires i < |targets| && OpenEnded(targets[i]) && forall k :: 0 <= k < i ==> !OpenEnded(targets[k])
    ensures HasOpenEnded(targets) && FirstOpen(targets) == targets[i]
  {
    if i > 0 {
      FirstOpenIs(targets[1..], i - 1);
      assert targets[1..][i - 1] == targets[i];
    }
  }

  /** With an open-ended target the job runs from that target's start without an end, whatever else it names. */
  lemma OpenEndedStart(db: DB, j: nat, i: nat, lo: int)
    requires j in db.jobs && db.jobs[j].state.Created? && i < |db.jobs[j].targets|
    requires db.jobs[j].targets[i] == Span(lo, None)
    requires forall k :: 0 <= k < i ==> db.jobs[j].targets[k].Link? || db.jobs[j].targets[k].hi.Some?
    ensures Apply(db, Control(j, Start)) ==
            db.(jobs := db.jobs[j := db.jobs[j].(lo := Some(lo), hi := None, cursor := Some(lo), state := JobState.Running)])
  {
    FirstOpenIs(db.jobs[j].targets, i);
  }

  /** Without targets the job runs from its cursor, from its lower end, or from 0. */
  lemma RangeStart(db: DB, j: nat, from: int)
    requires j in db.jobs && db.jobs[j].state.Created? && db.jobs[j].targets == []
    requires match db.jobs[j]
             case Job(_, _, _, Some(cursor), _, _, _, _, _) => from == cursor
             case Job(_, Some(lo), _, None, _, _, _, _, _) => from == lo
             case Job(_, None, _, None, _, _, _, _, _) => from == 0
    ensures Apply(db, Control(j, Start)) ==
            db.(jobs := db.jobs[j := db.jobs[j].(cursor := Some(from), state := JobState.Running)])
  {
    assert db.jobs[j] == db.jobs[j].(cursor := db.jobs[j].cursor);
  }

  // ---- Starts that cut the work in advance -------------------------------------------------------

  /** The target asks for the identifier; a range may be entered either way round. */
  predicate Names(t: Target, x: int) {
    match t
    case Span(lo, Some(hi)) => lo <= x <= hi || hi <= x <= lo
    case Span(lo, None) => x >= lo
    case Link(id, _) => x == id
  }

  /** How many identifiers the target asks for. */
  function Size(t: Target): int {
    match t
    case Span(lo, Some(hi)) => if lo <= hi then hi - lo + 1 else lo - hi + 1
    case Span(_, None) => 0
    case Link(_, _) => 1
  }

  /** The chunk is a fair piece of the target when `workers` share it: four such pieces each would more
      than do, and none has over 10000 identifiers. A link's piece carries its address. */
  predicate FairPiece(ch: Chunk, t: Target, workers: int) {
    && Names(t, ch.lo) && Names(t, ch.hi)
    && (ch.hi - ch.lo) * (4 * workers) < Size(t)
    && ch.hi - ch.lo + 1 <= 10000
    && ch.url == (if t.Link? then Some(t.url) else None)
  }

  /** A block is no longer than its share of the range, rounded up. */
  lemma SizeIsShare(span: int, workers: int)
    requires span >= 1 && workers >= 1
    ensures (AutoChunkSize(span, workers) - 1) * (4 * workers) < span
  {
  }

  lemma ShorterBlock(length: int, size: int, blocks: int, span: int)
    requires 0 <= length < size && blocks >= 1 && (size - 1) * blocks < span
    ensures length * blocks < span
  {
    MulMonotone(length, size - 1, blocks);
  }

  lemma TargetIsShared(j: nat, t: Target, workers: int)
    requires workers >= 1 && !OpenEnded(t)
    ensures forall i :: 0 <= i < |TargetChunks(j, t, workers)| ==> FairPiece(TargetChunks(j, t, workers)[i], t, workers)
  {
    hide Tiles, AutoChunkSize;
    var rows := TargetChunks(j, t, workers);
    if t.Span? {
      var at := Bounds(t);
      var span := at.hi - at.lo + 1;
      var size := AutoChunkSize(span, workers);
      TilesOrdered(at.lo, at.hi, size);
      SizeIsShare(span, workers);
      forall i | 0 <= i < |rows| ensures FairPiece(rows[i], t, workers) {
        ShorterBlock(rows[i].hi - rows[i].lo, size, 4 * workers, span);
      }
    }
  }

  ghost predicate Fair(ch: Chunk, targets: seq<Target>, workers: int) {
    exists t :: t in targets && FairPiece(ch, t, workers)
  }

  lemma {:induction false} KindIsShared(j: nat, targets: seq<Target>, links: bool, workers: int)
    requires workers >= 1 && !HasOpenEnded(targets)
    ensures forall ch :: ch in ChunksOf(j, targets, links, workers) ==> Fair(ch, targets, workers)
  {
    hide FairPiece;
    if targets != [] {
      var n := |targets| - 1;
      assert targets == targets[..n] + [targets[n]];
      KindIsShared(j, targets[..n], links, workers);
      TargetIsShared(j, targets[n], workers);
      forall ch | ch in ChunksOf(j, targets, links, workers) ensures Fair(ch, targets, workers) {
        if ch in ChunksOf(j, targets[..n], links, workers) {
          var t :| t in targets[..n] && FairPiece(ch, t, workers);
          assert t in targets;
        } else {
          assert targets[n] in targets;
        }
      }
    }
  }

  ghost predicate AreOnline(db: DB, s: set<nat>) {
    forall w: nat :: w in s <==> w in db.workers && db.workers[w].state == WorkerState.Online
  }

  /** `n` servers are online, or 3 stands in when none is. */
  ghost predicate Sharing(db: DB, n: nat) {
    exists s: set<nat> :: AreOnline(db, s) && n == if |s| == 0 then 3 else |s|
  }

  lemma SharingIsCount(db: DB, n: nat)
    requires Sharing(db, n)
    ensures n == OnlineCount(db) && n >= 1
  {
    var s: set<nat> :| AreOnline(db, s) && n == if |s| == 0 then 3 else |s|;
    assert s == set w | w in db.workers && db.workers[w].state.Online?;
  }

  /** Some target asks for the identifier. */
  ghost predicate Named(targets: seq<Target>, x: int) {
    exists t :: t in targets && Names(t, x)
  }

  lemma NamedIsWanted(targets: seq<Target>, x: int)
    requires !HasOpenEnded(targets)
    ensures Wanted(targets, x) <==> Named(targets, x)
  {
    if Wanted(targets, x) {
      var i :| 0 <= i < |targets| && Bounds(targets[i]).Has(x);
      assert targets[i] in targets && Names(targets[i], x);
    }
    if Named(targets, x) {
      var t :| t in targets && Names(t, x);
      var i :| 0 <= i < |targets| && targets[i] == t;
      assert Bounds(targets[i]).Has(x);
    }
  }

  /** A new chunk hands out the identifier. */
  ghost predicate CutFor(db: DB, after: DB, x: int) {
    exists c :: c in after.chunks && c !in db.chunks && after.chunks[c].Spans(x)
  }

  /** A first start of a job over finite targets either leaves everything as it was or cuts fresh chunks:
      they hand out exactly the identifiers the targets name, and each is a fair piece of one target for
      the servers online. */
  lemma FiniteStart(db: DB, j: nat, n: nat)
    requires Safe(db) && j in db.jobs && db.jobs[j].state.Created? && db.jobs[j].targets != []
    requires forall t :: t in db.jobs[j].targets ==> t.Link? || t.hi.Some?
    requires Sharing(db, n)
    ensures var job, after := db.jobs[j], Apply(db, Control(j, Start));
            after == db
            || (&& after.jobs == db.jobs[j := job.(cursor := None, state := JobState.Running)]
                && (forall c :: c in db.chunks ==> c in after.chunks && after.chunks[c] == db.chunks[c])
                && (forall c :: c in after.chunks && c !in db.chunks ==>
                      Fresh(after.chunks[c], j) && Fair(after.chunks[c], job.targets, n))
                && (forall x :: CutFor(db, after, x) <==> Named(job.targets, x)))
  {
    hide Apply, Safe, PreCut, Inserted, Fair, Clash, Named, CutFor, Fresh, Sharing;
    FiniteApply(db, j, n);
    SafeBelow(db);
    SharingIsCount(db, n);
    if !Clash(db.chunks, PreCut(j, db.jobs[j].targets, n)) {
      RowsAreCut(db, Apply(db, Control(j, Start)), j, n);
      RowsHandOut(db, Apply(db, Control(j, Start)), j, n);
    }
  }

  /** A first start inserts the rows cut in advance, unless they clash. */
  lemma FiniteApply(db: DB, j: nat, n: nat)
    requires j in db.jobs && db.jobs[j].state.Created? && db.jobs[j].targets != []
    requires forall t :: t in db.jobs[j].targets ==> t.Link? || t.hi.Some?
    requires Sharing(db, n)
    ensures var job, after := db.jobs[j], Apply(db, Control(j, Start));
            var rows := PreCut(j, job.targets, n);
            if Clash(db.chunks, rows) then after == db
            else after.jobs == db.jobs[j := job.(cursor := None, state := JobState.Running)]
                 && after.chunks == Inserted(db.chunks, db.nextChunk, rows)
  {
    hide PreCut, OnlineCount, Inserted, Clash, Sharing;
    SharingIsCount(db, n);
  }

  lemma RowsAreCut(db: DB, after: DB, j: nat, n: nat)
    requires j in db.jobs && !HasOpenEnded(db.jobs[j].targets) && n >= 1
    requires forall c :: c in db.chunks ==> c < db.nextChunk
    requires after.chunks == Inserted(db.chunks, db.nextChunk, PreCut(j, db.jobs[j].targets, n))
    ensures forall c :: c in db.chunks ==> c in after.chunks && after.chunks[c] == db.chunks[c]
    ensures forall c :: c in after.chunks && c !in db.chunks ==>
              Fresh(after.chunks[c], j) && Fair(after.chunks[c], db.jobs[j].targets, n)
  {
    hide PreCut, Inserted, Fair, AllFresh, Fresh, Wanted, RowHas;
    var targets := db.jobs[j].targets;
    var rows := PreCut(j, targets, n);
    InsertedRows(db.chunks, db.nextChunk, rows);
    PreCutCovers(j, targets, n);
    PreCutIsFair(j, targets, n);
    forall c | c in after.chunks && c !in db.chunks
      ensures Fresh(after.chunks[c], j) && Fair(after.chunks[c], targets, n)
    {
      RowIsFresh(rows, j, c - db.nextChunk);
      assert rows[c - db.nextChunk] in rows;
    }
  }

  lemma RowsHandOut(db: DB, after: DB, j: nat, n: nat)
    requires j in db.jobs && !HasOpenEnded(db.jobs[j].targets)
    requires forall c :: c in db.chunks ==> c < db.nextChunk
    requires after.chunks == Inserted(db.chunks, db.nextChunk, PreCut(j, db.jobs[j].targets, n))
    ensures forall x :: CutFor(db, after, x) <==> Named(db.jobs[j].targets, x)
  {
    hide PreCut, Inserted, CutFor, Named;
    forall x ensures CutFor(db, after, x) <==> Named(db.jobs[j].targets, x) {
      RowHandsOut(db, after, j, db.jobs[j].targets, PreCut(j, db.jobs[j].targets, n), n, x);
    }
  }

  lemma {:induction false} RowHandsOut(db: DB, after: DB, j: nat, targets: seq<Target>, rows: seq<Chunk>, n: nat, x: int)
    requires rows == PreCut(j, targets, n) && !HasOpenEnded(targets)
    requires forall c :: c in db.chunks ==> c < db.nextChunk
    requires after.chunks == Inserted(db.chunks, db.nextChunk, rows)
    ensures CutFor(db, after, x) <==> Named(targets, x)
  {
    hide PreCut, Inserted, AllFresh, Named, Wanted, RowHas, CutFor;
    InsertedRows(db.chunks, db.nextChunk, rows);
    NewChunksAreRows(db, after, rows, x);
    PreCutCovers(j, targets, n);
    NamedIsWanted(targets, x);
  }

  lemma SafeBelow(db: DB)
    requires Safe(db)
    ensures forall c :: c in db.chunks ==> c < db.nextChunk
  {
    hide Coherent, UniqueRanges;
  }

  lemma RowIsFresh(rows: seq<Chunk>, j: nat, i: nat)
    requires AllFresh(rows, j) && i < |rows|
    ensures Fresh(rows[i], j)
  {
  }

  lemma PreCutIsFair(j: nat, targets: seq<Target>, workers: int)
    requires workers >= 1 && !HasOpenEnded(targets)
    ensures forall ch :: ch in PreCut(j, targets, workers) ==> Fair(ch, targets, workers)
  {
    KindIsShared(j, targets, false, workers);
    KindIsShared(j, targets, true, workers);
  }

  lemma NewChunksAreRows(db: DB, after: DB, rows: seq<Chunk>, x: int)
    requires forall c :: c in db.chunks ==> c < db.nextChunk
    requires forall c :: c in after.chunks <==> c in db.chunks || db.nextChunk <= c < db.nextChunk + |rows|
    requires forall i :: 0 <= i < |rows| ==> db.nextChunk + i in after.chunks && after.chunks[db.nextChunk + i] == rows[i]
    ensures CutFor(db, after, x) <==> RowHas(rows, x)
  {
    if CutFor(db, after, x) {
      var c :| c in after.chunks && c !in db.chunks && after.chunks[c].Spans(x);
      assert rows[c - db.nextChunk].Spans(x);
    }
    if RowHas(rows, x) {
      var i :| 0 <= i < |rows| && rows[i].Spans(x);
      assert after.chunks[db.nextChunk + i].Spans(x) && db.nextChunk + i !in db.chunks;
    }
  }

  // ---- Which jobs can be started -----------------------------------------------------------------

  /** The k-th block of [a,b]. */
  predicate BlockNo(a: int, b: int, size: int, k: nat, lo: int, hi: int) {
    lo == a + k * size && lo <= b && hi == if lo + size - 1 <= b then lo + size - 1 else b
  }

  ghost predicate HasBlock(a: int, b: int, size: int, lo: int, hi: int) {
    exists k: nat :: BlockNo(a, b, size, k, lo, hi)
  }

  /** The target is cut into blocks one of which is [lo,hi]: a link is its own block, a range is cut from its
      lower end on. */
  ghost predicate IsBlock(t: Target, workers: int, lo: int, hi: int) {
    match t
    case Link(id, _) => lo == hi == id
    case Span(x, Some(y)) =>
      var a, b := if x <= y then x else y, if x <= y then y else x;
      HasBlock(a, b, AutoChunkSize(b - a + 1, workers), lo, hi)
    case Span(_, None) => false
  }

  /** Two of the targets are cut into a block with the same ends. */
  ghost predicate ShareABlock(targets: seq<Target>, workers: int) {
    exists i, k, lo, hi :: 0 <= i < k < |targets| && IsBlock(targets[i], workers, lo, hi) && IsBlock(targets[k], workers, lo, hi)
  }

  /** The tiles with these ends. */
  function TileMarks(ts: seq<Interval>, lo: int, hi: int): (marks: seq<bool>)
    ensures |marks| == |ts| && forall i :: 0 <= i < |ts| ==> marks[i] == (ts[i] == Interval(lo, hi))
  {
    seq(|ts|, i requires 0 <= i < |ts| => ts[i] == Interval(lo, hi))
  }

  function RangeMarks(rows: seq<Chunk>, lo: int, hi: int): (marks: seq<bool>)
    ensures |marks| == |rows| && forall i :: 0 <= i < |rows| ==> marks[i] == (rows[i].lo == lo && rows[i].hi == hi)
  {
    seq(|rows|, i requires 0 <= i < |rows| => rows[i].lo == lo && rows[i].hi == hi)
  }

  ghost function BlockMarks(targets: seq<Target>, workers: int, lo: int, hi: int): (marks: seq<bool>)
    ensures |marks| == |targets| && forall i :: 0 <= i < |targets| ==> marks[i] == IsBlock(targets[i], workers, lo, hi)
  {
    seq(|targets|, i requires 0 <= i < |targets| => IsBlock(targets[i], workers, lo, hi))
  }

  /** The tiles are the blocks. */
  lemma {:induction false} TilesAreBlocks(a: int, b: int, size: int, lo: int, hi: int)
    requires size >= 1
    ensures Interval(lo, hi) in Tiles(a, b, size) <==> HasBlock(a, b, size, lo, hi)
    decreases b + 1 - a
  {
    if a <= b {
      var end := Min(a + size - 1, b);
      TilesAreBlocks(end + 1, b, size, lo, hi);
      if Interval(lo, hi) == Interval(a, end) { assert BlockNo(a, b, size, 0, lo, hi); }
      if HasBlock(end + 1, b, size, lo, hi) {
        var k: nat :| BlockNo(end + 1, b, size, k, lo, hi);
        NextBlock(a, size, k);
        assert BlockNo(a, b, size, k + 1, lo, hi);
      }
      if HasBlock(a, b, size, lo, hi) {
        var k: nat :| BlockNo(a, b, size, k, lo, hi);
        if k > 0 {
          NextBlock(a, size, k - 1);
          MulMonotone(0, k - 1, size);
          assert BlockNo(end + 1, b, size, k - 1, lo, hi);
        }
      }
    } else if HasBlock(a, b, size, lo, hi) {
      var k: nat :| BlockNo(a, b, size, k, lo, hi);
      MulMonotone(0, k, size);
    }
  }

  lemma NextBlock(a: int, size: int, k: nat)
    ensures a + (k + 1) * size == a + size + k * size
  {
  }

  lemma {:induction false} TileCount(a: int, b: int, size: int, lo: int, hi: int)
    requires size >= 1
    ensures Ones(TileMarks(Tiles(a, b, size), lo, hi)) == if HasBlock(a, b, size, lo, hi) then 1 else 0
  {
    hide Tiles, Ones, HasBlock;
    var ts := Tiles(a, b, size);
    var marks := TileMarks(ts, lo, hi);
    TilesAreBlocks(a, b, size, lo, hi);
    TilesOrdered(a, b, size);
    OnesMeans(marks);
    if Interval(lo, hi) in ts {
      var i :| 0 <= i < |ts| && ts[i] == Interval(lo, hi);
      assert marks[i];
    }
    forall i, k | 0 <= i < k < |marks| && marks[i] ensures !marks[k] { assert ts[i].hi < ts[k].lo; }
  }

  lemma TargetBlocks(j: nat, t: Target, workers: int, lo: int, hi: int)
    requires !OpenEnded(t)
    ensures Ones(RangeMarks(TargetChunks(j, t, workers), lo, hi)) == if IsBlock(t, workers, lo, hi) then 1 else 0
  {
    hide Tiles, AutoChunkSize, HasBlock;
    var marks := RangeMarks(TargetChunks(j, t, workers), lo, hi);
    if t.Span? {
      var at := Bounds(t);
      var size := AutoChunkSize(at.hi - at.lo + 1, workers);
      TileCount(at.lo, at.hi, size, lo, hi);
      assert marks == TileMarks(Tiles(at.lo, at.hi, size), lo, hi);
    } else {
      assert marks[..0] == [];
    }
  }

  lemma RangeMarksJoin(a: seq<Chunk>, b: seq<Chunk>, lo: int, hi: int)
    ensures Ones(RangeMarks(a + b, lo, hi)) == Ones(RangeMarks(a, lo, hi)) + Ones(RangeMarks(b, lo, hi))
  {
    assert RangeMarks(a + b, lo, hi) == RangeMarks(a, lo, hi) + RangeMarks(b, lo, hi);
    OnesJoin(RangeMarks(a, lo, hi), RangeMarks(b, lo, hi));
  }

  /** As many rows of a first start have the given ends as targets are cut into such a block. */
  lemma {:induction false} KindBlocks(j: nat, targets: seq<Target>, workers: int, lo: int, hi: int)
    requires forall t :: t in targets ==> !OpenEnded(t)
    ensures Ones(RangeMarks(ChunksOf(j, targets, false, workers), lo, hi))
            + Ones(RangeMarks(ChunksOf(j, targets, true, workers), lo, hi)) == Ones(BlockMarks(targets, workers, lo, hi))
  {
    hide IsBlock, TargetChunks;
    if targets != [] {
      var n := |targets| - 1;
      assert targets[n] in targets && forall t :: t in targets[..n] ==> t in targets;
      KindBlocks(j, targets[..n], workers, lo, hi);
      TargetBlocks(j, targets[n], workers, lo, hi);
      RangeMarksJoin(ChunksOf(j, targets[..n], targets[n].Link?, workers), TargetChunks(j, targets[n], workers), lo, hi);
      assert BlockMarks(targets, workers, lo, hi)[..n] == BlockMarks(targets[..n], workers, lo, hi);
    }
  }

  ghost predicate Twins(rows: seq<Chunk>) {
    exists p, q :: 0 <= p < q < |rows| && rows[p].lo == rows[q].lo && rows[p].hi == rows[q].hi
  }

  lemma TwinRows(rows: seq<Chunk>)
    ensures Twins(rows) <==> exists lo, hi :: Ones(RangeMarks(rows, lo, hi)) > 1
  {
    if Twins(rows) {
      var p, q :| 0 <= p < q < |rows| && rows[p].lo == rows[q].lo && rows[p].hi == rows[q].hi;
      var marks := RangeMarks(rows, rows[p].lo, rows[p].hi);
      OnesMeans(marks);
      assert marks[p] && marks[q];
    }
    if exists lo, hi :: Ones(RangeMarks(rows, lo, hi)) > 1 {
      var lo, hi :| Ones(RangeMarks(rows, lo, hi)) > 1;
      var marks := RangeMarks(rows, lo, hi);
      OnesMeans(marks);
      var p, q :| 0 <= p < q < |marks| && marks[p] && marks[q];
      assert rows[p].lo == rows[q].lo && rows[p].hi == rows[q].hi;
    }
  }

  lemma SharedBlocks(targets: seq<Target>, workers: int)
    ensures ShareABlock(targets, workers) <==> exists lo, hi :: Ones(BlockMarks(targets, workers, lo, hi)) > 1
  {
    hide IsBlock;
    if ShareABlock(targets, workers) {
      var i, k, lo, hi :| 0 <= i < k < |targets| && IsBlock(targets[i], workers, lo, hi) && IsBlock(targets[k], workers, lo, hi);
      var marks := BlockMarks(targets, workers, lo, hi);
      OnesMeans(marks);
      assert marks[i] && marks[k];
    }
    if exists lo, hi :: Ones(BlockMarks(targets, workers, lo, hi)) > 1 {
      var lo, hi :| Ones(BlockMarks(targets, workers, lo, hi)) > 1;
      var marks := BlockMarks(targets, workers, lo, hi);
      OnesMeans(marks);
      var i, k :| 0 <= i < k < |marks| && marks[i] && marks[k];
      assert IsBlock(targets[i], workers, lo, hi) && IsBlock(targets[k], workers, lo, hi);
    }
  }

  /** Rows of a first start repeat a range exactly when two targets share a block. */
  lemma TwinsAreShared(j: nat, targets: seq<Target>, workers: int)
    requires forall t :: t in targets ==> !OpenEnded(t)
    ensures Twins(PreCut(j, targets, workers)) <==> ShareABlock(targets, workers)
  {
    hide Twins, ShareABlock, IsBlock, Ones;
    var rows := PreCut(j, targets, workers);
    forall lo, hi ensures Ones(RangeMarks(rows, lo, hi)) == Ones(BlockMarks(targets, workers, lo, hi)) {
      KindBlocks(j, targets, workers, lo, hi);
      RangeMarksJoin(ChunksOf(j, targets, false, workers), ChunksOf(j, targets, true, workers), lo, hi);
    }
    TwinRows(rows);
    SharedBlocks(targets, workers);
  }

  lemma ClashIsTwins(db: DB, rows: seq<Chunk>, j: nat)
    requires AllFresh(rows, j) && forall c :: c in db.chunks ==> db.chunks[c].job != j
    ensures Clash(db.chunks, rows) <==> Twins(rows)
  {
    forall i | 0 <= i < |rows| ensures rows[i].job == j { assert Fresh(rows[i], j); }
    if Twins(rows) {
      var p, q :| 0 <= p < q < |rows| && rows[p].lo == rows[q].lo && rows[p].hi == rows[q].hi;
      assert SameRange(rows[p], rows[q]);
    }
  }

  /** A job over finite targets that has no chunks yet is started unless two of its targets are cut into a
      block with the same ends for the servers online; then the unique constraint undoes the start. */
  lemma StartsUnlessSharing(db: DB, j: nat, n: nat)
    requires j in db.jobs && db.jobs[j].state.Created? && db.jobs[j].targets != []
    requires forall t :: t in db.jobs[j].targets ==> t.Link? || t.hi.Some?
    requires forall c :: c in db.chunks ==> db.chunks[c].job != j
    requires Sharing(db, n)
    ensures var after := Apply(db, Control(j, Start));
            if ShareABlock(db.jobs[j].targets, n) then after == db
            else j in after.jobs && after.jobs[j].state == JobState.Running
  {
    hide Apply, PreCut, Inserted, Clash, AllFresh, Twins, ShareABlock, Sharing;
    var targets := db.jobs[j].targets;
    FiniteApply(db, j, n);
    PreCutCovers(j, targets, n);
    ClashIsTwins(db, PreCut(j, targets, n), j);
    TwinsAreShared(j, targets, n);
  }

  /** The targets ask for the same range, or for the same video by a link. */
  predicate SameInput(t: Target, u: Target) {
    match (t, u)
    case (Span(a, Some(b)), Span(c, Some(d))) => (a == c && b == d) || (a == d && b == c)
    case (Link(a, _), Link(b, _)) => a == b
    case _ => false
  }

  lemma SameInputShares(targets: seq<Target>, workers: int, i: nat, k: nat)
    requires i < k < |targets| && SameInput(targets[i], targets[k])
    ensures ShareABlock(targets, workers)
  {
    hide IsBlock;
    var lo, hi := FirstBlock(targets[i], targets[k], workers);
    assert IsBlock(targets[i], workers, lo, hi) && IsBlock(targets[k], workers, lo, hi);
  }

  lemma FirstBlock(t: Target, u: Target, workers: int) returns (lo: int, hi: int)
    requires SameInput(t, u)
    ensures IsBlock(t, workers, lo, hi) && IsBlock(u, workers, lo, hi)
  {
    hide AutoChunkSize;
    var at := Bounds(t);
    lo := at.lo;
    if t.Link? {
      hi := lo;
    } else {
      var size := AutoChunkSize(at.hi - lo + 1, workers);
      hi := if lo + size - 1 <= at.hi then lo + size - 1 else at.hi;
      assert BlockNo(lo, at.hi, size, 0, lo, hi);
    }
  }

  /** So a job that names the same range or the same link twice can never be started, however many servers
      are online. */
  lemma RepeatedTargetNeverStarts(db: DB, j: nat, i: nat, k: nat, n: nat)
    requires j in db.jobs && db.jobs[j].state.Created?
    requires forall t :: t in db.jobs[j].targets ==> t.Link? || t.hi.Some?
    requires forall c :: c in db.chunks ==> db.chunks[c].job != j
    requires i < k < |db.jobs[j].targets| && SameInput(db.jobs[j].targets[i], db.jobs[j].targets[k])
    ensures Sharing(db, n) ==> Apply(db, Control(j, Start)) == db
  {
    SameInputShares(db.jobs[j].targets, n, i, k);
    if Sharing(db, n) { StartsUnlessSharing(db, j, n); }
  }

  /** And one whose targets name no identifier twice always is. */
  lemma SeparateTargetsStart(db: DB, j: nat, n: nat)
    requires j in db.jobs && db.jobs[j].state.Created? && db.jobs[j].targets != []
    requires forall t :: t in db.jobs[j].targets ==> t.Link? || t.hi.Some?
    requires forall i, k, x :: 0 <= i < k < |db.jobs[j].targets| && Names(db.jobs[j].targets[i], x) ==>
               !Names(db.jobs[j].targets[k], x)
    requires forall c :: c in db.chunks ==> db.chunks[c].job != j
    requires Sharing(db, n)
    ensures var after := Apply(db, Control(j, Start)); j in after.jobs && after.jobs[j].state == JobState.Running
  {
    var targets := db.jobs[j].targets;
    if ShareABlock(targets, n) {
      var i, k, lo, hi :| 0 <= i < k < |targets| && IsBlock(targets[i], n, lo, hi) && IsBlock(targets[k], n, lo, hi);
      BlockIsNamed(targets[i], n, lo, hi);
      BlockIsNamed(targets[k], n, lo, hi);
    }
    StartsUnlessSharing(db, j, n);
  }

  lemma BlockIsNamed(t: Target, workers: int, lo: int, hi: int)
    requires IsBlock(t, workers, lo, hi)
    ensures Names(t, lo)
  {
    hide AutoChunkSize;
    if t.Span? {
      var at := Bounds(t);
      var size := AutoChunkSize(at.hi - at.lo + 1, workers);
      assert HasBlock(at.lo, at.hi, size, lo, hi);
      var k: nat :| BlockNo(at.lo, at.hi, size, k, lo, hi);
      MulMonotone(0, k, size);
    }
  }
}
