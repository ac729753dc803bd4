/** Cutting a job's targets into chunks before the first lease. */
module Chunking {
  import opened Rows

  const MAX_AUTO_CHUNK := 10000
  const CHUNKS_PER_WORKER := 4

  function CeilDiv(a: int, b: int): (q: int)
    requires b > 0
    ensures (q - 1) * b < a <= q * b
  {
    (a + b - 1) / b
  }

  /** Aim for about four blocks per worker, at most MAX_AUTO_CHUNK identifiers each. */
  function AutoChunkSize(span: int, workers: int): (size: int)
    ensures 1 <= size <= MAX_AUTO_CHUNK
  {
    var blocks := Max(1, workers * CHUNKS_PER_WORKER);
    Max(1, Min(MAX_AUTO_CHUNK, CeilDiv(span, blocks)))
  }

  datatype Interval = Interval(lo: int, hi: int)
  {
    predicate Has(x: int) { lo <= x <= hi }
  }

  /** The intervals the cutting loop produces for [a,b]. */
  function Tiles(a: int, b: int, size: int): (ts: seq<Interval>)
    requires size >= 1
    decreases b + 1 - a
  {
    if a > b then []
    else
      var end := Min(a + size - 1, b);
      [Interval(a, end)] + Tiles(end + 1, b, size)
  }

  ghost predicate HasTile(ts: seq<Interval>, x: int) {
    exists i :: 0 <= i < |ts| && ts[i].Has(x)
  }

  /** Non-empty tiles inside [a,b], each strictly after the one before it. */
  ghost predicate Ordered(ts: seq<Interval>, a: int, b: int, size: int) {
    && (forall i :: 0 <= i < |ts| ==> a <= ts[i].lo <= ts[i].hi <= b && ts[i].hi - ts[i].lo < size)
    && (forall i, k :: 0 <= i < k < |ts| ==> ts[i].hi < ts[k].lo)
  }

  /** The tiles are non-empty, follow one another without overlap, and lie inside [a,b]. */
  lemma {:induction false} TilesOrdered(a: int, b: int, size: int)
    requires size >= 1
    ensures Ordered(Tiles(a, b, size), a, b, size)
    decreases b + 1 - a
  {
    var ts := Tiles(a, b, size);
    if a <= b {
      var end := Min(a + size - 1, b);
      TilesOrdered(end + 1, b, size);
      assert ts == [Interval(a, end)] + Tiles(end + 1, b, size);
    }
  }

  /** The tiles cover exactly [a,b]. */
  lemma {:induction false} TilesCover(a: int, b: int, size: int, x: int)
    requires size >= 1
    ensures a <= x <= b <==> HasTile(Tiles(a, b, size), x)
    decreases b + 1 - a
  {
    var ts := Tiles(a, b, size);
    if a <= b {
      var end := Min(a + size - 1, b);
      var rest := Tiles(end + 1, b, size);
      TilesCover(end + 1, b, size, x);
      assert ts == [Interval(a, end)] + rest;
      if a <= x <= end {
        assert ts[0].Has(x);
      } else if end < x <= b {
        var i :| 0 <= i < |rest| && rest[i].Has(x);
        assert ts[i + 1].Has(x);
      } else {
        TilesOrdered(a, b, size);
      }
    }
  }

  /** As few tiles as the size allows: ceil(span / size). */
  lemma {:induction false} TilesCount(a: int, b: int, size: int)
    requires size >= 1 && a <= b + 1
    ensures (|Tiles(a, b, size)| - 1) * size < b + 1 - a <= |Tiles(a, b, size)| * size
    decreases b + 1 - a
  {
    if a <= b {
      var end := Min(a + size - 1, b);
      var n := |Tiles(end + 1, b, size)|;
      TilesCount(end + 1, b, size);
      assert |Tiles(a, b, size)| == n + 1;
      if end == b {
        assert n == 0;
      } else {
        assert (n + 1) * size == n * size + size;
        assert n * size == (n - 1) * size + size;
      }
    }
  }

  lemma MulMonotone(x: int, y: int, k: int)
    requires x <= y && k >= 0
    ensures x * k <= y * k
  {
  }

  /** If n tiles are needed and k of them suffice, then n <= k. */
  lemma TilesSuffice(n: int, k: int, size: int, span: int)
    requires size >= 1
    requires (n - 1) * size < span <= k * size
    ensures n <= k
  {
    if n > k {
      MulMonotone(k, n - 1, size);
    }
  }

  /** Pre-cutting balances: at most max(4 * workers, ceil(span / 10000)) chunks for one target. */
  lemma AutoTilesBounded(a: int, b: int, workers: int)
    requires a <= b && workers >= 1
    ensures |Tiles(a, b, AutoChunkSize(b - a + 1, workers))|
            <= Max(CHUNKS_PER_WORKER * workers, CeilDiv(b - a + 1, MAX_AUTO_CHUNK))
  {
    hide Tiles;
    var span := b - a + 1;
    var blocks := CHUNKS_PER_WORKER * workers;
    var size := AutoChunkSize(span, workers);
    var n := |Tiles(a, b, size)|;
    TilesCount(a, b, size);
    if size == MAX_AUTO_CHUNK {
      TilesSuffice(n, CeilDiv(span, MAX_AUTO_CHUNK), size, span);
    } else {
      var q := CeilDiv(span, blocks);
      assert q <= size;
      assert q * blocks <= size * blocks;
      TilesSuffice(n, blocks, size, span);
    }
  }

  /** A target's end points, swapped when they were entered the wrong way round. */
  function Bounds(t: Target): Interval {
    match t
    case Span(lo, Some(hi)) => if lo > hi then Interval(hi, lo) else Interval(lo, hi)
    case Span(lo, None) => Interval(lo, lo)
    case Link(id, _) => Interval(id, id)
  }

  predicate OpenEnded(t: Target) {
    t.Span? && t.hi.None?
  }

  predicate HasOpenEnded(targets: seq<Target>) {
    exists t :: t in targets && OpenEnded(t)
  }

  /** The first open-ended target wins; the others are dropped. */
  function FirstOpen(targets: seq<Target>): (t: Target)
    requires HasOpenEnded(targets)
    ensures t in targets && OpenEnded(t)
  {
    if OpenEnded(targets[0]) then targets[0]
    else
      assert exists t :: t in targets[1..] && OpenEnded(t) by {
        var t :| t in targets && OpenEnded(t);
        assert t in targets[1..];
      }
      FirstOpen(targets[1..])
  }

  function NewChunk(j: nat, at: Interval, url: Option<string>): Chunk {
    Chunk(j, at.lo, at.hi, at.lo, url, ChunkStatus.Pending, None, None, 0)
  }

  function AsChunks(j: nat, ts: seq<Interval>): (rows: seq<Chunk>)
    ensures |rows| == |ts|
    ensures forall i :: 0 <= i < |rows| ==> rows[i] == NewChunk(j, ts[i], None)
  {
    seq(|ts|, i requires 0 <= i < |ts| => NewChunk(j, ts[i], None))
  }

  /** Rows for one finite target: auto-sized blocks of a range, or one block for a link. */
  function TargetChunks(j: nat, t: Target, workers: int): seq<Chunk> {
    match t
    case Span(_, _) =>
      var at := Bounds(t);
      AsChunks(j, Tiles(at.lo, at.hi, AutoChunkSize(at.hi - at.lo + 1, workers)))
    case Link(id, url) => [NewChunk(j, Interval(id, id), Some(url))]
  }

  /** Whichever way round its ends were entered, a target is cut into at most
      max(4 * workers, ceil(span / 10000)) chunks. */
  lemma TargetBalanced(j: nat, t: Target, workers: int)
    requires workers >= 1
    ensures var span := Bounds(t).hi - Bounds(t).lo + 1;
            1 <= |TargetChunks(j, t, workers)| <= Max(CHUNKS_PER_WORKER * workers, CeilDiv(span, MAX_AUTO_CHUNK))
  {
    var at := Bounds(t);
    AutoTilesBounded(at.lo, at.hi, workers);
  }

  /** Rows of the targets that are ranges (links when `links`), in order. */
  function ChunksOf(j: nat, targets: seq<Target>, links: bool, workers: int): seq<Chunk> {
    if targets == [] then []
    else
      var last := targets[|targets| - 1];
      var before := ChunksOf(j, targets[..|targets| - 1], links, workers);
      if last.Link? == links then before + TargetChunks(j, last, workers) else before
  }

  /** All rows a first start inserts: the ranges first, then the links. */
  function PreCut(j: nat, targets: seq<Target>, workers: int): seq<Chunk> {
    ChunksOf(j, targets, false, workers) + ChunksOf(j, targets, true, workers)
  }

  // ---- What the rows of a first start cover ------------------------------------------------------

  /** How many marks are set. */
  function Ones(marks: seq<bool>): nat {
    if marks == [] then 0
    else Ones(marks[..|marks| - 1]) + if marks[|marks| - 1] then 1 else 0
  }

  lemma {:induction false} OnesJoin(a: seq<bool>, b: seq<bool>)
    ensures Ones(a + b) == Ones(a) + Ones(b)
  {
    if b == [] {
      assert a + b == a;
    } else {
      OnesJoin(a, b[..|b| - 1]);
      assert (a + b)[..|a + b| - 1] == a + b[..|b| - 1];
    }
  }

  lemma {:induction false} OnesMeans(marks: seq<bool>)
    ensures Ones(marks) >= 1 <==> exists i :: 0 <= i < |marks| && marks[i]
    ensures Ones(marks) <= 1 <==> forall i, k :: 0 <= i < k < |marks| && marks[i] ==> !marks[k]
  {
    if marks != [] {
      var n := |marks| - 1;
      var init := marks[..n];
      OnesMeans(init);
      assert forall i :: 0 <= i < n ==> init[i] == marks[i];
      if exists i :: 0 <= i < n && init[i] {
        var i :| 0 <= i < n && init[i];
        assert marks[i];
      }
      if Ones(init) > 1 {
        var i, k :| 0 <= i < k < n && init[i] && init[k];
        assert marks[i] && marks[k];
      }
    }
  }

  /** Which rows hold the identifier. */
  function RowMarks(rows: seq<Chunk>, x: int): (marks: seq<bool>)
    ensures |marks| == |rows|
    ensures forall i :: 0 <= i < |rows| ==> marks[i] == rows[i].Spans(x)
  {
    seq(|rows|, i requires 0 <= i < |rows| => rows[i].Spans(x))
  }

  /** Which targets name the identifier. */
  function TargetMarks(targets: seq<Target>, x: int): (marks: seq<bool>)
    ensures |marks| == |targets|
    ensures forall i :: 0 <= i < |targets| ==> marks[i] == Bounds(targets[i]).Has(x)
  {
    seq(|targets|, i requires 0 <= i < |targets| => Bounds(targets[i]).Has(x))
  }

  ghost predicate RowHas(rows: seq<Chunk>, x: int) {
    exists i :: 0 <= i < |rows| && rows[i].Spans(x)
  }

  ghost predicate Wanted(targets: seq<Target>, x: int) {
    exists i :: 0 <= i < |targets| && Bounds(targets[i]).Has(x)
  }

  /** At most one row holds the identifier. */
  ghost predicate RowOnce(rows: seq<Chunk>, x: int) {
    forall i, k :: 0 <= i < k < |rows| && rows[i].Spans(x) ==> !rows[k].Spans(x)
  }

  /** At most one target names the identifier. */
  ghost predicate Once(targets: seq<Target>, x: int) {
    forall i, k :: 0 <= i < k < |targets| && Bounds(targets[i]).Has(x) ==> !Bounds(targets[k]).Has(x)
  }

  /** No identifier lies in two rows. */
  ghost predicate RowsDisjoint(rows: seq<Chunk>) {
    forall x :: RowOnce(rows, x)
  }

  /** No identifier is named by two targets. */
  ghost predicate Disjoint(targets: seq<Target>) {
    forall x :: Once(targets, x)
  }

  ghost predicate Fresh(ch: Chunk, j: nat) {
    && ch.job == j && ch.status.Pending? && ch.holder.None? && ch.expires.None?
    && ch.lo <= ch.hi && ch.next == ch.lo
  }

  ghost predicate AllFresh(rows: seq<Chunk>, j: nat) {
    forall i :: 0 <= i < |rows| ==> Fresh(rows[i], j)
  }

  lemma RowCount(rows: seq<Chunk>, x: int)
    ensures Ones(RowMarks(rows, x)) >= 1 <==> RowHas(rows, x)
    ensures Ones(RowMarks(rows, x)) <= 1 <==> RowOnce(rows, x)
  {
    var marks := RowMarks(rows, x);
    OnesMeans(marks);
    if RowHas(rows, x) {
      var i :| 0 <= i < |rows| && rows[i].Spans(x);
      assert marks[i];
    }
    if Ones(marks) > 1 {
      var i, k :| 0 <= i < k < |marks| && marks[i] && marks[k];
      assert rows[i].Spans(x) && rows[k].Spans(x);
    }
  }

  lemma TargetCount(targets: seq<Target>, x: int)
    ensures Ones(TargetMarks(targets, x)) >= 1 <==> Wanted(targets, x)
    ensures Ones(TargetMarks(targets, x)) <= 1 <==> Once(targets, x)
  {
    var marks := TargetMarks(targets, x);
    OnesMeans(marks);
    if Wanted(targets, x) {
      var i :| 0 <= i < |targets| && Bounds(targets[i]).Has(x);
      assert marks[i];
    }
    if Ones(marks) > 1 {
      var i, k :| 0 <= i < k < |marks| && marks[i] && marks[k];
      assert Bounds(targets[i]).Has(x) && Bounds(targets[k]).Has(x);
    }
  }

  lemma {:induction false} TileRows(j: nat, a: int, b: int, size: int, x: int)
    requires size >= 1
    ensures AllFresh(AsChunks(j, Tiles(a, b, size)), j)
    ensures RowHas(AsChunks(j, Tiles(a, b, size)), x) <==> a <= x <= b
    ensures RowOnce(AsChunks(j, Tiles(a, b, size)), x)
  {
    hide Tiles;
    var ts := Tiles(a, b, size);
    var rows := AsChunks(j, ts);
    TilesOrdered(a, b, size);
    TilesCover(a, b, size, x);
    if a <= x <= b {
      var i :| 0 <= i < |ts| && ts[i].Has(x);
      assert rows[i].Spans(x);
    }
  }

  /** One target's rows are fresh, and exactly one of them holds each identifier it names. */
  lemma TargetRows(j: nat, t: Target, workers: int, x: int)
    ensures AllFresh(TargetChunks(j, t, workers), j)
    ensures Ones(RowMarks(TargetChunks(j, t, workers), x)) == if Bounds(t).Has(x) then 1 else 0
  {
    hide Tiles, AutoChunkSize, RowMarks, Ones;
    var at := Bounds(t);
    var rows := TargetChunks(j, t, workers);
    RowCount(rows, x);
    if t.Span? {
      TileRows(j, at.lo, at.hi, AutoChunkSize(at.hi - at.lo + 1, workers), x);
    } else if at.Has(x) {
      assert rows[0].Spans(x);
    }
  }

  lemma RowMarksJoin(a: seq<Chunk>, b: seq<Chunk>, x: int)
    ensures Ones(RowMarks(a + b, x)) == Ones(RowMarks(a, x)) + Ones(RowMarks(b, x))
  {
    assert RowMarks(a + b, x) == RowMarks(a, x) + RowMarks(b, x);
    OnesJoin(RowMarks(a, x), RowMarks(b, x));
  }

  /** The ranges' rows and the links' rows together hold an identifier as often as the targets name it. */
  lemma {:induction false} KindRows(j: nat, targets: seq<Target>, workers: int, x: int)
    ensures AllFresh(ChunksOf(j, targets, false, workers), j) && AllFresh(ChunksOf(j, targets, true, workers), j)
    ensures Ones(RowMarks(ChunksOf(j, targets, false, workers), x)) + Ones(RowMarks(ChunksOf(j, targets, true, workers), x))
            == Ones(TargetMarks(targets, x))
  {
    if targets != [] {
      var n := |targets| - 1;
      KindRows(j, targets[..n], workers, x);
      TargetRows(j, targets[n], workers, x);
      RowMarksJoin(ChunksOf(j, targets[..n], targets[n].Link?, workers), TargetChunks(j, targets[n], workers), x);
      assert TargetMarks(targets, x)[..n] == TargetMarks(targets[..n], x);
    }
  }

  /** As many rows of a first start hold an identifier as targets name it. */
  lemma PreCutCount(j: nat, targets: seq<Target>, workers: int, x: int)
    ensures AllFresh(PreCut(j, targets, workers), j)
    ensures Ones(RowMarks(PreCut(j, targets, workers), x)) == Ones(TargetMarks(targets, x))
  {
    KindRows(j, targets, workers, x);
    RowMarksJoin(ChunksOf(j, targets, false, workers), ChunksOf(j, targets, true, workers), x);
  }

  /** The rows a first start inserts are fresh chunks covering exactly the identifiers its targets name. */
  lemma PreCutCovers(j: nat, targets: seq<Target>, workers: int)
    ensures AllFresh(PreCut(j, targets, workers), j)
    ensures forall x :: RowHas(PreCut(j, targets, workers), x) <==> Wanted(targets, x)
  {
    hide PreCut;
    PreCutCount(j, targets, workers, 0);
    forall x ensures RowHas(PreCut(j, targets, workers), x) <==> Wanted(targets, x) {
      PreCutCount(j, targets, workers, x);
      RowCount(PreCut(j, targets, workers), x);
      TargetCount(targets, x);
    }
  }

  /** No two of the pre-cut chunks hand out an identifier exactly when no two targets name it; so no
      identifier at all is handed out twice exactly when the targets are disjoint. */
  lemma PreCutDisjoint(j: nat, targets: seq<Target>, workers: int)
    ensures forall x :: RowOnce(PreCut(j, targets, workers), x) <==> Once(targets, x)
    ensures RowsDisjoint(PreCut(j, targets, workers)) <==> Disjoint(targets)
  {
    hide PreCut, RowOnce, Once;
    forall x ensures RowOnce(PreCut(j, targets, workers), x) <==> Once(targets, x) {
      PreCutCount(j, targets, workers, x);
      RowCount(PreCut(j, targets, workers), x);
      TargetCount(targets, x);
    }
  }
}
