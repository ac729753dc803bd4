/** Every request, with reports from honest agents, keeps the database orderly. */
module Steps {
  import opened Rows
  import opened Catalogue
  import opened Database
  import opened Chunking
  import opened SchedulerSpec
  import opened DrainSpec
  import opened Requests
  import opened LeaseSafety
  import opened Ledger

  // ---- Quiet requests ----------------------------------------------------------------------------

  /** A quiet step after which no job is newly completed. */
  ghost predicate Calm(db: DB, after: DB) {
    && Quiet(db, after)
    && (forall j :: j in after.jobs && after.jobs[j].state.Completed? ==> db.jobs[j].state.Completed?)
  }

  lemma CalmKeeps(db: DB, after: DB)
    requires Orderly(db) && Calm(db, after) && Safe(after)
    ensures Orderly(after)
  {
    QuietConcluded(db, after);
    QuietKeeps(db, after);
  }

  lemma WorkerRequestCalm(db: DB, r: Request)
    requires r.Tick? || r.Register? || r.Heartbeat? || r.MarkStale?
    ensures Calm(db, Apply(db, r))
  {
    hide BeatHeart;
    var after := Apply(db, r);
    if r.Heartbeat? {
      if r.worker in db.workers { BeatShape(db, r.worker, r.active, r.lease, r.sample); }
    } else if r.Register? || r.MarkStale? {
      hide RegisterWorker, MarkStaleWorkers;
      RegisterShape(db, r);
    }
    assert after.jobs == db.jobs && after.tables == db.tables;
  }

  lemma ReclaimCalm(db: DB)
    ensures Calm(db, ReclaimExpired(db))
  {
  }

  lemma GrantCalm(db: DB, c: nat, w: nat, seconds: int)
    requires c in db.chunks && db.chunks[c].status.Pending?
    ensures Calm(db, Grant(db, c, w, seconds))
  {
    var e := Granted(c, db.chunks[c].job, w);
    assert e.Granted? && Grant(db, c, w, seconds).log == db.log + [e];
  }

  lemma FailCalm(db: DB, w: nat, c: nat)
    ensures Calm(db, CompleteChunk(db, w, c, ChunkStatus.Failed).0)
  {
  }

  lemma ControlCalm(db: DB, j: nat, command: Command)
    requires j in db.jobs && !(command.Start? && db.jobs[j].state.Created?)
    ensures Calm(db, Drive(db, j, command))
  {
  }

  lemma DismissCalm(db: DB, r: Request)
    requires r.Dismiss? || r.DismissAll?
    ensures Calm(db, Apply(db, r))
  {
    assert Apply(db, r) == db.(tables := Apply(db, r).tables);
  }

  lemma DeleteItemsCalm(db: DB, gone: set<Key>)
    ensures Calm(db, db.(tables := DropItems(db.tables, gone)))
  {
  }

  lemma DeleteJobCalm(db: DB, j: nat)
    requires j in db.jobs
    ensures Calm(db, WithoutJob(db, j))
  {
  }

  lemma ItemRequestCalm(db: DB, r: Request)
    requires r.Dismiss? || r.DismissAll? || r.DeleteItems? || r.DeleteJob?
    ensures Calm(db, Apply(db, r))
  {
    hide DropItems, WithoutJob, DismissMany;
    if r.DeleteItems? {
      DeleteItemsCalm(db, r.items);
    } else if r.DeleteJob? {
      if r.deleted in db.jobs { DeleteJobCalm(db, r.deleted); }
    } else {
      DismissCalm(db, r);
    }
  }

  lemma PurgeCalm(db: DB, w: nat)
    ensures Calm(db, Purge(db, w))
  {
    hide Purge, OneDownload;
    PurgeMeans(db, w);
  }

  lemma SetDrainingCalm(db: DB, w: nat)
    requires w in db.workers
    ensures Calm(db, SetDraining(db, w))
  {
  }

  // ---- Histories of rows that do not exist yet ---------------------------------------------------

  lemma {:induction false} NoRecords(log: seq<Event>, c: nat)
    requires forall i :: 0 <= i < |log| ==> log[i].chunk < c
    ensures Recorded(log, c) == []
  {
    if log != [] { NoRecords(log[..|log| - 1], c); }
  }

  lemma {:induction false} NoCuts(log: seq<Event>, j: nat, a: int)
    requires forall i :: 0 <= i < |log| ==> log[i].job < j
    ensures CutUpTo(log, j, a) == Some(a)
  {
    if log != [] { NoCuts(log[..|log| - 1], j, a); }
  }

  // ---- Creating and starting jobs ----------------------------------------------------------------

  lemma AddJobBegun(db: DB, job: Job)
    requires Begun(db) && Linked(db) && job.state.Created? && job.cursor.None? && job.size >= 1
    ensures Begun(AddJob(db, job))
  {
    var after := AddJob(db, job);
    NoCuts(db.log, db.nextJob, FirstId(job));
    forall j | j in after.jobs ensures BegunJob(after, j) {
      if j in db.jobs { assert BegunJob(db, j); }
    }
  }

  lemma AddJobCovered(db: DB, job: Job)
    requires Covered(db) && Linked(db) && job.state.Created?
    ensures Covered(AddJob(db, job))
  {
    var after := AddJob(db, job);
    forall j, x | j in after.jobs && !after.jobs[j].state.Created? && Universe(after.jobs[j], x)
      ensures Reported(after.log, j, x) || InHand(after, j, x) || Uncut(after.jobs[j], x)
    {
      assert Universe(db.jobs[j], x);
      if InHand(db, j, x) {
        var c :| c in db.chunks && db.chunks[c].job == j && db.chunks[c].Todo(x);
        assert c in after.chunks && after.chunks[c].Todo(x);
      }
    }
  }

  lemma AddJobTodo(db: DB, job: Job)
    requires Linked(db) && Shaped(db) && Exclusive(db) && Unsettled(db) && Tiled(db)
    ensures var after := AddJob(db, job); Shaped(after) && Exclusive(after) && Unsettled(after) && Tiled(after)
  {
  }

  lemma AddJobConcluded(db: DB, job: Job)
    requires Concluded(db) && Linked(db) && job.state.Created?
    ensures Concluded(AddJob(db, job))
  {
    var after := AddJob(db, job);
    forall j | j in after.jobs ensures ConcludedJob(after, j) {
      if j in db.jobs { assert ConcludedJob(db, j); }
    }
  }

  lemma AddJobKeeps(db: DB, job: Job)
    requires Orderly(db)
    requires job.state.Created? && job.cursor.None? && job.size >= 1 && (job.owner.Some? ==> job.owner.value in db.workers)
    ensures Orderly(AddJob(db, job))
  {
    hide Linked, Coherent, UniqueRanges, Shaped, Begun, Covered, Exclusive, Unsettled, Tiled, Concluded, Within, AddJob;
    AddJobSafe(db, job);
    AddJobBegun(db, job);
    AddJobCovered(db, job);
    AddJobTodo(db, job);
    AddJobConcluded(db, job);
    AddJobWithin(db, job);
  }

  lemma AddJobWithin(db: DB, job: Job)
    requires Within(db) && Linked(db)
    ensures Within(AddJob(db, job))
  {
    var after := AddJob(db, job);
    forall j, x | j in after.jobs && Reported(after.log, j, x) ensures Universe(after.jobs[j], x) {
      var i :| 0 <= i < |db.log| && db.log[i].Accepted? && db.log[i].job == j && Lists(db.log[i].ids, x);
      assert j < db.nextJob;
    }
  }

  /** `rows` were inserted with consecutive keys from `first`. */
  ghost predicate AddedRows(chunks: map<nat, Chunk>, after: map<nat, Chunk>, first: nat, rows: seq<Chunk>) {
    && (forall c :: c in chunks ==> c < first)
    && (forall c :: c in after <==> c in chunks || first <= c < first + |rows|)
    && (forall c :: c in after ==> after[c] == if c < first then chunks[c] else rows[c - first])
  }

  /** `after` is `db` with job `j` started: only that job's row differs, and `rows` were inserted for it. */
  ghost predicate StartedWith(db: DB, after: DB, j: nat, rows: seq<Chunk>) {
    && j in db.jobs && db.jobs[j].state.Created? && j in after.jobs && after.jobs[j].state.Running?
    && after.jobs[j].targets == db.jobs[j].targets && after.jobs[j].size == db.jobs[j].size
    && (forall i :: i in after.jobs <==> i in db.jobs)
    && (forall i :: i in db.jobs && i != j ==> after.jobs[i] == db.jobs[i])
    && after.tables == db.tables && after.log == db.log
    && AddedRows(db.chunks, after.chunks, db.nextChunk, rows)
    && AllFresh(rows, j)
  }

  /** The new cursor, or the new rows, cover what the job has to process. */
  ghost predicate StartsRight(db: DB, after: DB, j: nat, rows: seq<Chunk>)
    requires StartedWith(db, after, j, rows)
  {
    var job := after.jobs[j];
    if Lazy(job) then
      && rows == [] && job.hi == LastId(job) && job.cursor == Some(FirstId(job))
      && FirstId(job) == FirstId(db.jobs[j]) && LastId(job) == LastId(db.jobs[j])
    else
      && job.cursor.None?
      && (forall x :: Wanted(job.targets, x) <==> RowHas(rows, x))
      && (forall x :: Once(job.targets, x) ==> RowOnce(rows, x))
  }

  lemma StartedBegun(db: DB, after: DB, j: nat, rows: seq<Chunk>)
    requires Begun(db) && StartedWith(db, after, j, rows) && StartsRight(db, after, j, rows)
    ensures Begun(after)
  {
    assert BegunJob(db, j);
    forall i | i in after.jobs ensures BegunJob(after, i) {
      assert BegunJob(db, i);
    }
  }

  lemma AddedInHand(db: DB, after: DB, j: nat, rows: seq<Chunk>, i: nat, x: int)
    requires AddedRows(db.chunks, after.chunks, db.nextChunk, rows) && AllFresh(rows, j)
    ensures InHand(db, i, x) ==> InHand(after, i, x)
    ensures RowHas(rows, x) ==> InHand(after, j, x)
  {
    if InHand(db, i, x) {
      var c :| c in db.chunks && db.chunks[c].job == i && db.chunks[c].Todo(x);
      assert c in after.chunks && after.chunks[c].Todo(x);
    }
    if RowHas(rows, x) {
      var r :| 0 <= r < |rows| && rows[r].Spans(x);
      assert Fresh(rows[r], j);
      var c := db.nextChunk + r;
      assert c in after.chunks && after.chunks[c].Todo(x);
    }
  }

  lemma StartedCovered(db: DB, after: DB, j: nat, rows: seq<Chunk>)
    requires Covered(db) && StartedWith(db, after, j, rows) && StartsRight(db, after, j, rows)
    ensures Covered(after)
  {
    forall i, x | i in after.jobs && !after.jobs[i].state.Created? && Universe(after.jobs[i], x)
      ensures Reported(after.log, i, x) || InHand(after, i, x) || Uncut(after.jobs[i], x)
    {
      AddedInHand(db, after, j, rows, i, x);
      if i != j { assert Universe(db.jobs[i], x); }
    }
  }

  /** Chunks of the started job are exactly the new rows. */
  lemma AddedRowsAre(chunks: map<nat, Chunk>, after: map<nat, Chunk>, first: nat,
                     rows: seq<Chunk>, j: nat, c: nat)
    requires AddedRows(chunks, after, first, rows) && AllFresh(rows, j)
    requires forall d :: d in chunks ==> chunks[d].job != j
    requires c in after
    ensures if after[c].job == j then first <= c < first + |rows| && after[c] == rows[c - first] && Fresh(after[c], j)
            else c in chunks && after[c] == chunks[c]
  {
    if c >= first { assert Fresh(rows[c - first], j); }
  }

  lemma StartedExclusive(db: DB, after: DB, j: nat, rows: seq<Chunk>)
    requires Exclusive(db) && Begun(db)
    requires StartedWith(db, after, j, rows) && StartsRight(db, after, j, rows)
    ensures Exclusive(after)
  {
    assert BegunJob(db, j);
    forall c, d, x | c in after.chunks && d in after.chunks && c != d && after.chunks[c].job == after.chunks[d].job
                     && after.chunks[c].job in after.jobs && SeparateAt(after.jobs[after.chunks[c].job], x)
                     && after.chunks[c].Todo(x)
      ensures !after.chunks[d].Todo(x)
    {
      AddedRowsAre(db.chunks, after.chunks, db.nextChunk, rows, j, c);
      AddedRowsAre(db.chunks, after.chunks, db.nextChunk, rows, j, d);
      if after.chunks[c].job == j {
        var a, b := c - db.nextChunk, d - db.nextChunk;
        assert rows[a].Spans(x);
        assert !rows[b].Spans(x);
      }
    }
  }

  lemma StartedUnsettled(db: DB, after: DB, j: nat, rows: seq<Chunk>)
    requires Unsettled(db) && Begun(db) && StartedWith(db, after, j, rows)
    ensures Unsettled(after)
  {
    assert BegunJob(db, j);
    forall c, x | c in after.chunks && after.chunks[c].job in after.jobs && SeparateAt(after.jobs[after.chunks[c].job], x)
                  && after.chunks[c].Todo(x)
      ensures Unresolved(after.tables, Key(after.chunks[c].job, x))
    {
      AddedRowsAre(db.chunks, after.chunks, db.nextChunk, rows, j, c);
    }
  }

  lemma StartedTiled(db: DB, after: DB, j: nat, rows: seq<Chunk>)
    requires Tiled(db) && Shaped(db) && Linked(db) && StartedWith(db, after, j, rows)
    ensures Tiled(after) && Shaped(after)
  {
    forall c | c in after.chunks
      ensures ShapedChunk(after.chunks[c])
      ensures Recorded(after.log, c) == Consecutive(after.chunks[c].lo, after.chunks[c].next)
    {
      if c in db.chunks {
        assert ShapedChunk(db.chunks[c]);
      } else {
        assert Fresh(rows[c - db.nextChunk], j);
        NoRecords(db.log, c);
      }
    }
  }

  lemma StartedWithin(db: DB, after: DB, j: nat, rows: seq<Chunk>)
    requires Within(db) && Begun(db) && StartedWith(db, after, j, rows) && StartsRight(db, after, j, rows)
    ensures Within(after)
  {
    assert BegunJob(db, j);
    assert Lazy(after.jobs[j]) == Lazy(db.jobs[j]);
    forall x ensures Universe(db.jobs[j], x) ==> Universe(after.jobs[j], x) {}
    forall c, x | c in after.chunks && after.chunks[c].job in after.jobs && after.chunks[c].Spans(x)
      ensures Universe(after.jobs[after.chunks[c].job], x)
    {
      AddedRowsAre(db.chunks, after.chunks, db.nextChunk, rows, j, c);
      if after.chunks[c].job == j {
        assert rows[c - db.nextChunk].Spans(x);
        assert RowHas(rows, x);
      } else {
        assert db.chunks[c].Spans(x);
      }
    }
  }

  lemma StartedKeeps(db: DB, after: DB, j: nat, rows: seq<Chunk>)
    requires Orderly(db) && StartedWith(db, after, j, rows) && StartsRight(db, after, j, rows) && Safe(after)
    ensures Orderly(after)
  {
    hide Coherent, UniqueRanges, Linked, Begun, Covered, Exclusive, Unsettled, Tiled, Within, StartsRight, AddedRows;
    StartedBegun(db, after, j, rows);
    StartedCovered(db, after, j, rows);
    StartedExclusive(db, after, j, rows);
    StartedUnsettled(db, after, j, rows);
    StartedTiled(db, after, j, rows);
    StartedWithin(db, after, j, rows);
    forall i | i in after.jobs ensures ConcludedJob(after, i) {
      assert ConcludedJob(db, i);
    }
  }

  /** The state a first start leads to. */
  ghost function FirstStart(db: DB, j: nat): Option<DB>
    requires j in db.jobs
  {
    match Initialize(db, j)
    case None => None
    case Some(d) => Some(WithJob(d, j, d.jobs[j].(state := JobState.Running)))
  }

  /** How a first start changes the row of a job that is cut on demand. */
  lemma LazyRow(db: DB, j: nat)
    requires j in db.jobs && Lazy(db.jobs[j]) && db.jobs[j].cursor.None?
    ensures FirstStart(db, j).Some?
    ensures var job, after := db.jobs[j], FirstStart(db, j).value;
            && after == db.(jobs := after.jobs) && j in after.jobs
            && (forall i :: i in after.jobs <==> i in db.jobs)
            && (forall i :: i in db.jobs && i != j ==> after.jobs[i] == db.jobs[i])
            && after.jobs[j] == job.(lo := after.jobs[j].lo, hi := LastId(job), cursor := Some(FirstId(job)), state := JobState.Running)
            && (job.targets == [] ==> after.jobs[j].lo == job.lo)
  {
  }

  lemma FirstStartLazy(db: DB, j: nat)
    requires j in db.jobs && BegunJob(db, j) && Linked(db) && db.jobs[j].state.Created? && Lazy(db.jobs[j])
    ensures FirstStart(db, j).Some?
    ensures StartedWith(db, FirstStart(db, j).value, j, []) && StartsRight(db, FirstStart(db, j).value, j, [])
  {
    LazyRow(db, j);
  }

  /** How a first start changes the rows of a job whose work is cut in advance. */
  ghost predicate FiniteStart(db: DB, after: DB, j: nat, rows: seq<Chunk>) {
    && j in db.jobs && after.tables == db.tables && after.log == db.log && j in after.jobs
    && after.chunks == Inserted(db.chunks, db.nextChunk, rows)
    && (forall i :: i in after.jobs <==> i in db.jobs)
    && (forall i :: i in db.jobs && i != j ==> after.jobs[i] == db.jobs[i])
    && after.jobs[j] == db.jobs[j].(cursor := None, state := JobState.Running)
  }

  lemma FiniteStartIs(db: DB, j: nat, rows: seq<Chunk>)
    requires j in db.jobs && !Lazy(db.jobs[j]) && FirstStart(db, j).Some?
    requires rows == PreCut(j, db.jobs[j].targets, OnlineCount(db))
    ensures FiniteStart(db, FirstStart(db, j).value, j, rows)
  {
  }

  lemma FirstStartFinite(db: DB, after: DB, j: nat, rows: seq<Chunk>, workers: int)
    requires Linked(db) && FiniteStart(db, after, j, rows) && db.jobs[j].state.Created? && !Lazy(db.jobs[j])
    requires rows == PreCut(j, db.jobs[j].targets, workers)
    ensures StartedWith(db, after, j, rows) && StartsRight(db, after, j, rows)
  {
    hide PreCut, RowOnce, Once, RowHas, Wanted, Inserted, OneDownload;
    PreCutCovers(j, db.jobs[j].targets, workers);
    PreCutDisjoint(j, db.jobs[j].targets, workers);
    InsertedRows(db.chunks, db.nextChunk, rows);
    assert AddedRows(db.chunks, after.chunks, db.nextChunk, rows);
  }

  lemma FirstStartKeeps(db: DB, j: nat)
    requires Orderly(db) && j in db.jobs && db.jobs[j].state.Created?
    ensures FirstStart(db, j).Some? ==> Orderly(FirstStart(db, j).value)
  {
    if FirstStart(db, j).Some? {
      var after := FirstStart(db, j).value;
      InitializeSafe(db, j);
      var d := Initialize(db, j).value;
      WithJobSafe(d, j, d.jobs[j].(state := JobState.Running));
      if Lazy(db.jobs[j]) {
        assert BegunJob(db, j);
        FirstStartLazy(db, j);
        StartedKeeps(db, after, j, []);
      } else {
        var rows := PreCut(j, db.jobs[j].targets, OnlineCount(db));
        FiniteStartIs(db, j, rows);
        FirstStartFinite(db, after, j, rows, OnlineCount(db));
        StartedKeeps(db, after, j, rows);
      }
    }
  }

  // ---- Cutting on demand -------------------------------------------------------------------------

  lemma CutBegun(db: DB, j: nat)
    requires Begun(db) && Shaped(db) && j in db.jobs && HasUncut(db.jobs[j])
    ensures Begun(CutPiece(db, j))
  {
    var after := CutPiece(db, j);
    var piece := NextPiece(j, db.jobs[j]);
    var e := Cut(db.nextChunk, j, piece.lo, piece.hi);
    AppendEvent(db.log, e);
    assert BegunJob(db, j);
    forall i | i in after.jobs ensures BegunJob(after, i) {
      assert BegunJob(db, i);
    }
  }

  lemma CutCovered(db: DB, j: nat)
    requires Covered(db) && Linked(db) && j in db.jobs && HasUncut(db.jobs[j])
    ensures Covered(CutPiece(db, j))
  {
    var after := CutPiece(db, j);
    var piece := NextPiece(j, db.jobs[j]);
    var e := Cut(db.nextChunk, j, piece.lo, piece.hi);
    forall i, x | i in after.jobs && !after.jobs[i].state.Created? && Universe(after.jobs[i], x)
      ensures Reported(after.log, i, x) || InHand(after, i, x) || Uncut(after.jobs[i], x)
    {
      assert Universe(db.jobs[i], x);
      if Reported(db.log, i, x) {
        ReportedAppend(db.log, e, i, x);
      } else if InHand(db, i, x) {
        var c :| c in db.chunks && db.chunks[c].job == i && db.chunks[c].Todo(x);
        assert c in after.chunks && after.chunks[c].Todo(x);
      } else if i == j && x <= piece.hi {
        assert after.chunks[db.nextChunk].Todo(x);
      }
    }
  }

  lemma CutExclusive(db: DB, j: nat)
    requires Exclusive(db) && Unsettled(db) && Begun(db) && Linked(db) && Shaped(db)
    requires j in db.jobs && HasUncut(db.jobs[j])
    ensures Exclusive(CutPiece(db, j)) && Unsettled(CutPiece(db, j))
  {
    assert BegunJob(db, j);
    var after := CutPiece(db, j);
    var n := db.nextChunk;
    var k := db.jobs[j].cursor.value;
    forall c | c in db.chunks && db.chunks[c].job == j ensures db.chunks[c].hi < k {}
    assert forall x :: after.chunks[n].Todo(x) ==> k <= x;
  }

  lemma CutTiled(db: DB, j: nat)
    requires Tiled(db) && Linked(db) && j in db.jobs && HasUncut(db.jobs[j])
    ensures Tiled(CutPiece(db, j))
  {
    var after := CutPiece(db, j);
    var piece := NextPiece(j, db.jobs[j]);
    AppendEvent(db.log, Cut(db.nextChunk, j, piece.lo, piece.hi));
    NoRecords(db.log, db.nextChunk);
  }

  lemma CutWithin(db: DB, j: nat)
    requires Within(db) && Begun(db) && Linked(db) && j in db.jobs && HasUncut(db.jobs[j])
    ensures Within(CutPiece(db, j))
  {
    var after := CutPiece(db, j);
    var piece := NextPiece(j, db.jobs[j]);
    var e := Cut(db.nextChunk, j, piece.lo, piece.hi);
    assert BegunJob(db, j);
    forall i, x ensures Reported(after.log, i, x) <==> Reported(db.log, i, x) { ReportedAppend(db.log, e, i, x); }
    forall i, x | i in db.jobs ensures Universe(after.jobs[i], x) <==> Universe(db.jobs[i], x) {}
    forall c, x | c in after.chunks && after.chunks[c].job in after.jobs && after.chunks[c].Spans(x)
      ensures Universe(after.jobs[after.chunks[c].job], x)
    {
      if c in db.chunks { assert db.chunks[c].Spans(x); }
    }
  }

  lemma CutKeeps(db: DB, j: nat)
    requires Orderly(db) && j in db.jobs && HasUncut(db.jobs[j])
    requires Safe(CutPiece(db, j))
    ensures Orderly(CutPiece(db, j))
  {
    hide Coherent, UniqueRanges, Linked, Covered, Exclusive, Unsettled, Tiled, Within;
    var after := CutPiece(db, j);
    var piece := NextPiece(j, db.jobs[j]);
    assert BegunJob(db, j);
    CutBegun(db, j);
    CutCovered(db, j);
    CutExclusive(db, j);
    CutTiled(db, j);
    CutWithin(db, j);
    forall i | i in after.jobs ensures ConcludedJob(after, i) {
      assert ConcludedJob(db, i);
      LogGrown(db, after.log, i);
    }
  }

  /** Appending events loses no report. */
  lemma LogGrown(db: DB, log: seq<Event>, j: nat)
    requires |log| == |db.log| + 1 && log[..|db.log|] == db.log
    ensures forall x :: Reported(db.log, j, x) ==> Reported(log, j, x)
  {
    assert log == db.log + [log[|db.log|]];
    forall x | Reported(db.log, j, x) ensures Reported(log, j, x) {
      ReportedAppend(db.log, log[|db.log|], j, x);
    }
  }

  // ---- Honest progress ---------------------------------------------------------------------------

  /** A report as an honest agent sends it: one result for each identifier from the checkpoint on. */
  ghost predicate HonestReport(db: DB, w: nat, c: nat, next: int, rs: seq<Result>) {
    Holds(db, w, c) ==>
      && db.chunks[c].next < next <= db.chunks[c].hi + 1
      && |rs| == next - db.chunks[c].next
      && forall i :: 0 <= i < |rs| ==> rs[i].id == db.chunks[c].next + i
  }

  /** What an accepted honest report changes. */
  ghost predicate Progressed(db: DB, after: DB, w: nat, c: nat, next: int, ids: seq<int>) {
    && c in db.chunks
    && after.jobs == db.jobs && after.nextChunk == db.nextChunk
    && (forall d :: d in after.chunks <==> d in db.chunks)
    && (forall d :: d in db.chunks && d != c ==> after.chunks[d] == db.chunks[d])
    && SameRange(db.chunks[c], after.chunks[c]) && after.chunks[c].next == next && after.chunks[c].Open()
    && db.chunks[c].Open() && db.chunks[c].next < next <= db.chunks[c].hi + 1
    && ids == Consecutive(db.chunks[c].next, next)
    && after.log == db.log + [Accepted(c, db.chunks[c].job, w, ids, next)]
    && (forall k :: k in after.tables.items <==>
          k in db.tables.items || (k.job == db.chunks[c].job && db.chunks[c].next <= k.id < next))
    && (forall k :: k in db.tables.items && !(k.job == db.chunks[c].job && db.chunks[c].next <= k.id < next) ==>
          after.tables.items[k] == db.tables.items[k])
  }

  lemma ProgressMeans(db: DB, w: nat, c: nat, next: int, rs: seq<Result>)
    requires w in db.workers && Holds(db, w, c) && HonestReport(db, w, c, next, rs)
    ensures Progressed(db, Progress(db, w, c, next, rs).0, w, c, next, Ids(rs))
  {
    var after := Progress(db, w, c, next, rs).0;
    var ch := db.chunks[c];
    var who := ReporterOf(db, w, ch.job);
    RecordAllItems(db.tables, who, rs);
    forall k ensures Mentions(rs, who, k) <==> k.job == ch.job && ch.next <= k.id < next {
      if k.job == ch.job && ch.next <= k.id < next {
        assert who.KeyOf(rs[k.id - ch.next]) == k;
      }
    }
    assert Ids(rs) == Consecutive(ch.next, next);
    assert SameRange(ch, after.chunks[c]);
  }

  lemma ProgressedBegun(db: DB, after: DB, w: nat, c: nat, next: int, ids: seq<int>)
    requires Begun(db) && Linked(db) && Progressed(db, after, w, c, next, ids)
    ensures Begun(after)
  {
    var e := Accepted(c, db.chunks[c].job, w, ids, next);
    AppendEvent(db.log, e);
    forall j | j in after.jobs ensures BegunJob(after, j) {
      assert BegunJob(db, j);
    }
  }

  lemma ProgressedCovered(db: DB, after: DB, w: nat, c: nat, next: int, ids: seq<int>)
    requires Covered(db) && Progressed(db, after, w, c, next, ids)
    ensures Covered(after)
  {
    var e := Accepted(c, db.chunks[c].job, w, ids, next);
    forall j, x | j in after.jobs && !after.jobs[j].state.Created? && Universe(after.jobs[j], x)
      ensures Reported(after.log, j, x) || InHand(after, j, x) || Uncut(after.jobs[j], x)
    {
      if Reported(db.log, j, x) {
        ReportedAppend(db.log, e, j, x);
      } else if InHand(db, j, x) {
        var d :| d in db.chunks && db.chunks[d].job == j && db.chunks[d].Todo(x);
        if d == c && x < next {
          assert after.log[|db.log|] == e;
          assert ids[x - db.chunks[c].next] == x;
        } else {
          assert after.chunks[d].Todo(x);
        }
      }
    }
  }

  lemma ProgressedTodo(db: DB, after: DB, w: nat, c: nat, next: int, ids: seq<int>)
    requires Exclusive(db) && Unsettled(db) && Progressed(db, after, w, c, next, ids)
    ensures Exclusive(after) && Unsettled(after)
  {
    forall d, x | d in after.chunks && after.chunks[d].Todo(x) ensures db.chunks[d].Todo(x) {}
    forall d, x | d in after.chunks && after.chunks[d].job in after.jobs && SeparateAt(after.jobs[after.chunks[d].job], x)
                  && after.chunks[d].Todo(x)
      ensures Unresolved(after.tables, Key(after.chunks[d].job, x))
    {
      var k := Key(after.chunks[d].job, x);
      assert Unresolved(db.tables, k);
      assert db.chunks[c].next <= x < next ==> db.chunks[c].Todo(x);
    }
  }

  lemma ConsecutiveJoin(a: int, b: int, c: int)
    requires a <= b <= c
    ensures Consecutive(a, b) + Consecutive(b, c) == Consecutive(a, c)
  {
  }

  lemma ProgressedTiled(db: DB, after: DB, w: nat, c: nat, next: int, ids: seq<int>)
    requires Tiled(db) && Shaped(db) && Progressed(db, after, w, c, next, ids)
    ensures Tiled(after) && Shaped(after)
  {
    var ch := db.chunks[c];
    var e := Accepted(c, ch.job, w, ids, next);
    AppendEvent(db.log, e);
    assert ShapedChunk(ch);
    ConsecutiveJoin(ch.lo, ch.next, next);
    forall d | d in after.chunks
      ensures ShapedChunk(after.chunks[d])
      ensures Recorded(after.log, d) == Consecutive(after.chunks[d].lo, after.chunks[d].next)
    {
      assert ShapedChunk(db.chunks[d]);
      if d == c {
        assert Recorded(after.log, c) == Recorded(db.log, c) + ids;
      }
    }
  }

  lemma ProgressedWithin(db: DB, after: DB, w: nat, c: nat, next: int, ids: seq<int>)
    requires Within(db) && Shaped(db) && Progressed(db, after, w, c, next, ids)
    ensures Within(after)
  {
    var ch := db.chunks[c];
    var e := Accepted(c, ch.job, w, ids, next);
    assert ShapedChunk(ch);
    forall x | Lists(ids, x) ensures ch.next <= x < next {
      var i :| 0 <= i < |ids| && ids[i] == x;
    }
    forall x | ch.next <= x < next && ch.job in db.jobs ensures Universe(db.jobs[ch.job], x) {
      assert ch.Spans(x);
    }
    forall j, x | j in after.jobs && Reported(after.log, j, x) ensures Universe(after.jobs[j], x) {
      ReportedAppend(db.log, e, j, x);
    }
    forall d, x | d in after.chunks && after.chunks[d].job in after.jobs && after.chunks[d].Spans(x)
      ensures Universe(after.jobs[after.chunks[d].job], x)
    {
      assert db.chunks[d].Spans(x);
    }
  }

  lemma ReportKeeps(db: DB, w: nat, c: nat, next: int, rs: seq<Result>)
    requires Orderly(db) && w in db.workers && HonestReport(db, w, c, next, rs)
    ensures Orderly(Progress(db, w, c, next, rs).0)
  {
    if Holds(db, w, c) {
      var after := Progress(db, w, c, next, rs).0;
      ProgressSafe(db, w, c, next, rs);
      ProgressMeans(db, w, c, next, rs);
      ProgressedBegun(db, after, w, c, next, Ids(rs));
      ProgressedCovered(db, after, w, c, next, Ids(rs));
      ProgressedTodo(db, after, w, c, next, Ids(rs));
      ProgressedTiled(db, after, w, c, next, Ids(rs));
      ProgressedWithin(db, after, w, c, next, Ids(rs));
      forall j | j in after.jobs ensures ConcludedJob(after, j) {
        assert ConcludedJob(db, j);
        LogGrown(db, after.log, j);
      }
    }
  }

  // ---- Completing --------------------------------------------------------------------------------

  /** An honest agent completes a chunk only when its checkpoint has passed the end. */
  ghost predicate HonestComplete(db: DB, w: nat, c: nat) {
    Holds(db, w, c) ==> db.chunks[c].next == db.chunks[c].hi + 1
  }

  lemma CompleteChunkKeeps(db: DB, w: nat, c: nat)
    requires Orderly(db) && HonestComplete(db, w, c)
    ensures Orderly(CompleteChunk(db, w, c, ChunkStatus.Completed).0)
  {
    hide Safe, Begun, Covered, Exclusive, Unsettled, Tiled, Concluded, Within;
    var after := CompleteChunk(db, w, c, ChunkStatus.Completed).0;
    CompleteSafe(db, w, c, ChunkStatus.Completed);
    if Holds(db, w, c) {
      assert forall d, x :: d in db.chunks ==> (after.chunks[d].Todo(x) <==> db.chunks[d].Todo(x));
      forall d | d in after.chunks ensures ShapedChunk(after.chunks[d]) {
        assert ShapedChunk(db.chunks[d]);
      }
      ClosedKeeps(db, after);
    }
  }

  /** Closing exhausted chunks changes nothing that is in hand. */
  lemma ClosedKeeps(db: DB, after: DB)
    requires Orderly(db) && Safe(after) && Shaped(after)
    requires after.jobs == db.jobs && after.tables == db.tables && after.log == db.log
    requires forall c :: c in after.chunks <==> c in db.chunks
    requires forall c :: c in db.chunks ==> SameRange(db.chunks[c], after.chunks[c]) && after.chunks[c].next == db.chunks[c].next
    requires forall c, x :: c in db.chunks ==> (after.chunks[c].Todo(x) <==> db.chunks[c].Todo(x))
    ensures Orderly(after)
  {
    forall j | j in after.jobs ensures BegunJob(after, j) && ConcludedJob(after, j) {
      assert BegunJob(db, j) && ConcludedJob(db, j);
    }
    forall j, x | j in after.jobs && !after.jobs[j].state.Created? && Universe(after.jobs[j], x)
      ensures Reported(after.log, j, x) || InHand(after, j, x) || Uncut(after.jobs[j], x)
    {
      if InHand(db, j, x) {
        var c :| c in db.chunks && db.chunks[c].job == j && db.chunks[c].Todo(x);
        assert c in after.chunks && after.chunks[c].Todo(x);
      }
    }
    forall c, x | c in after.chunks && after.chunks[c].Spans(x) ensures db.chunks[c].Spans(x) {}
  }

  /** A job that can be marked completed has every identifier reported. */
  lemma FinishableIsDone(db: DB, j: nat)
    requires Orderly(db) && Finishable(db, j)
    ensures !OpenEndedJob(db.jobs[j])
    ensures forall x :: Universe(db.jobs[j], x) ==> Reported(db.log, j, x)
  {
    assert BegunJob(db, j);
    NothingInHand(db, j);
  }

  lemma NothingInHand(db: DB, j: nat)
    requires !HasOpenChunk(db, j)
    ensures forall x :: !InHand(db, j, x)
  {
  }

  lemma FinishQuiet(db: DB, j: nat)
    ensures Quiet(db, MaybeCompleteJob(db, j))
  {
  }

  lemma FinishKeeps(db: DB, j: nat)
    requires Orderly(db)
    ensures Orderly(MaybeCompleteJob(db, j))
  {
    if Finishable(db, j) {
      var after := MaybeCompleteJob(db, j);
      FinishSafe(db, j);
      FinishQuiet(db, j);
      FinishableIsDone(db, j);
      forall i | i in after.jobs ensures ConcludedJob(after, i) {
        assert ConcludedJob(db, i);
      }
      QuietKeeps(db, after);
    }
  }

  // ---- Retrying ----------------------------------------------------------------------------------

  /** What re-queuing one identifier changes: its item is pending again, and one single-identifier
      chunk at `c` (new, or rewound) hands out exactly that identifier. */
  ghost predicate Requeuing(db: DB, after: DB, k: Key, c: nat) {
    && k in db.tables.items
    && after.jobs == db.jobs
    && after.log == db.log + [Event.Requeued(c, k.job)]
    && (forall q :: q in after.tables.items <==> q in db.tables.items)
    && (forall q :: q in db.tables.items && q != k ==> after.tables.items[q] == db.tables.items[q])
    && after.tables.items[k].status.Pending?
    && (forall d :: d in after.chunks <==> d in db.chunks || d == c)
    && (forall d :: d in db.chunks && d != c ==> after.chunks[d] == db.chunks[d])
    && after.chunks[c].job == k.job && after.chunks[c].lo == after.chunks[c].hi == after.chunks[c].next == k.id
    && after.chunks[c].status.Pending?
    && (c in db.chunks ==> SameRange(db.chunks[c], after.chunks[c]))
  }

  lemma RequeueMeans(db: DB, k: Key) returns (c: nat)
    requires Linked(db) && k in db.tables.items
    ensures Requeuing(db, RequeueOne(db, k), k, c)
    ensures c in db.chunks || c == db.nextChunk
  {
    var singles := SingleChunks(db, k.job, k.id);
    c := if singles == {} then db.nextChunk else Least(singles);
  }

  lemma RequeueBegun(db: DB, after: DB, k: Key, c: nat)
    requires Begun(db) && Requeuing(db, after, k, c)
    ensures Begun(after)
  {
    AppendEvent(db.log, Event.Requeued(c, k.job));
    forall j | j in after.jobs ensures BegunJob(after, j) {
      assert BegunJob(db, j);
    }
  }

  lemma RequeueCovered(db: DB, after: DB, k: Key, c: nat)
    requires Covered(db) && Shaped(db) && Requeuing(db, after, k, c)
    ensures Covered(after)
  {
    var e := Event.Requeued(c, k.job);
    forall j, x | j in after.jobs && !after.jobs[j].state.Created? && Universe(after.jobs[j], x)
      ensures Reported(after.log, j, x) || InHand(after, j, x) || Uncut(after.jobs[j], x)
    {
      if Reported(db.log, j, x) {
        ReportedAppend(db.log, e, j, x);
      } else if InHand(db, j, x) {
        var d :| d in db.chunks && db.chunks[d].job == j && db.chunks[d].Todo(x);
        assert ShapedChunk(db.chunks[d]);
        assert after.chunks[d].Todo(x);
      }
    }
  }

  /** Only the identifier itself comes back into hand, and nobody else has it: it had a failed result. */
  lemma RequeueTodo(db: DB, after: DB, k: Key, c: nat)
    requires Exclusive(db) && Unsettled(db) && Shaped(db) && Requeuing(db, after, k, c)
    requires Retryable(db.tables.items[k].status)
    ensures Exclusive(after) && Unsettled(after)
  {
    forall d, x | d in after.chunks && after.chunks[d].Todo(x)
      ensures if d == c then x == k.id else db.chunks[d].Todo(x) {}
    forall d | d in db.chunks && db.chunks[d].job == k.job && k.job in db.jobs && SeparateAt(db.jobs[k.job], k.id)
      ensures !db.chunks[d].Todo(k.id)
    {
      assert db.chunks[d].Todo(k.id) ==> Unresolved(db.tables, k);
    }
  }

  lemma RequeueTiled(db: DB, after: DB, k: Key, c: nat)
    requires Tiled(db) && Shaped(db) && Requeuing(db, after, k, c)
    ensures Tiled(after) && Shaped(after)
  {
    AppendEvent(db.log, Event.Requeued(c, k.job));
    forall d | d in after.chunks
      ensures ShapedChunk(after.chunks[d])
      ensures Recorded(after.log, d) == Consecutive(after.chunks[d].lo, after.chunks[d].next)
    {
      if d != c { assert ShapedChunk(db.chunks[d]); }
    }
  }

  lemma RequeueWithin(db: DB, after: DB, k: Key, c: nat)
    requires Within(db) && Requeuing(db, after, k, c)
    ensures Within(after)
  {
    var e := Event.Requeued(c, k.job);
    forall j, x ensures Reported(after.log, j, x) <==> Reported(db.log, j, x) { ReportedAppend(db.log, e, j, x); }
    forall d, x | d in after.chunks && after.chunks[d].job in after.jobs && after.chunks[d].Spans(x)
      ensures Universe(after.jobs[after.chunks[d].job], x)
    {
      if d != c { assert db.chunks[d].Spans(x); }
    }
  }

  lemma RequeueOneKeeps(db: DB, k: Key)
    requires Orderly(db) && k in db.tables.items && Retryable(db.tables.items[k].status)
    ensures Orderly(RequeueOne(db, k))
  {
    var after := RequeueOne(db, k);
    RequeueOneSafe(db, k);
    var c := RequeueMeans(db, k);
    RequeueBegun(db, after, k, c);
    RequeueCovered(db, after, k, c);
    RequeueTodo(db, after, k, c);
    RequeueTiled(db, after, k, c);
    RequeueWithin(db, after, k, c);
    forall j | j in after.jobs ensures ConcludedJob(after, j) {
      assert ConcludedJob(db, j);
      LogGrown(db, after.log, j);
    }
  }

  /** Re-queuing touches the listed items only. */
  lemma {:induction false} RequeueAllItems(db: DB, ks: seq<Key>)
    requires forall i :: 0 <= i < |ks| ==> ks[i] in db.tables.items
    ensures forall k :: k in db.tables.items && k !in ks ==>
              k in RequeueAll(db, ks).tables.items && RequeueAll(db, ks).tables.items[k] == db.tables.items[k]
  {
    if ks != [] {
      var n := |ks| - 1;
      RequeueAllItems(db, ks[..n]);
      assert ks == ks[..n] + [ks[n]];
    }
  }

  lemma {:induction false} RequeueAllKeeps(db: DB, ks: seq<Key>)
    requires Orderly(db)
    requires forall i :: 0 <= i < |ks| ==> ks[i] in db.tables.items && Retryable(db.tables.items[ks[i]].status)
    requires forall i, k :: 0 <= i < k < |ks| ==> ks[i] != ks[k]
    ensures Orderly(RequeueAll(db, ks)) && RequeueAll(db, ks).jobs == db.jobs
  {
    if ks != [] {
      var n := |ks| - 1;
      RequeueAllKeeps(db, ks[..n]);
      RequeueAllItems(db, ks[..n]);
      assert ks[n] !in ks[..n];
      RequeueOneKeeps(RequeueAll(db, ks[..n]), ks[n]);
    }
  }

  lemma ReopenKeeps(db: DB, j: nat)
    requires Orderly(db) && j in db.jobs && !db.jobs[j].state.Created?
    ensures Orderly(WithJob(db, j, db.jobs[j].(state := JobState.Running)))
  {
    hide Linked, Coherent, UniqueRanges, Shaped, Begun, Covered, Exclusive, Unsettled, Tiled, Concluded, Within;
    WithJobSafe(db, j, db.jobs[j].(state := JobState.Running));
    CalmKeeps(db, WithJob(db, j, db.jobs[j].(state := JobState.Running)));
  }

  lemma RetryKeeps(db: DB, j: nat)
    requires Orderly(db) && j in db.jobs
    ensures Orderly(Retry(db, j))
  {
    var ks := RetryList(db, j);
    RequeueAllKeeps(db, ks);
    if db.jobs[j].state.Completed? || db.jobs[j].state.Failed? {
      ReopenKeeps(RequeueAll(db, ks), j);
    }
  }

  // ---- Leasing and draining ----------------------------------------------------------------------

  lemma GrantKeeps(db: DB, c: nat, w: nat, seconds: int)
    requires Orderly(db) && c in Takeable(db, w) && w in db.workers && !db.workers[w].state.Draining?
    ensures Orderly(Grant(db, c, w, seconds))
  {
    GrantSafe(db, c, w, seconds);
    GrantCalm(db, c, w, seconds);
    CalmKeeps(db, Grant(db, c, w, seconds));
  }

  lemma LeaseKeeps(db: DB, w: nat, seconds: int)
    requires Orderly(db) && w in db.workers
    ensures Orderly(Lease(db, w, seconds).0)
  {
    hide Calm, Clash, Linked, Coherent, UniqueRanges, Shaped, Begun, Covered, Exclusive, Unsettled, Tiled, Concluded,
         Within;
    var d := ReclaimExpired(db);
    ReclaimSafe(db);
    ReclaimCalm(db);
    CalmKeeps(db, d);
    if !db.workers[w].state.Draining? && HasSpace(d.workers[w]) {
      if Takeable(d, w) != {} {
        GrantKeeps(d, Least(Takeable(d, w)), w, seconds);
      } else if Cuttable(d, w) != {} {
        var j := Least(Cuttable(d, w));
        if !Clash(d.chunks, [NextPiece(j, d.jobs[j])]) {
          CutSafe(d, j);
          CutKeeps(d, j);
          var e := CutPiece(d, j);
          assert d.nextChunk in Takeable(e, w);
          GrantKeeps(e, d.nextChunk, w, seconds);
        }
      }
    }
  }

  lemma AddRunningKeeps(db: DB, job: Job)
    requires Orderly(db)
    requires job.state.Created? && job.cursor.None? && job.size >= 1 && job.owner.None?
    ensures AddRunning(db, job).Some? ==> Orderly(AddRunning(db, job).value)
  {
    AddJobKeeps(db, job);
    FirstStartKeeps(AddJob(db, job), db.nextJob);
  }

  lemma {:induction false} TransferJobsKeep(db: DB, ts: seq<Transfer>, sources: seq<string>)
    requires Orderly(db)
    ensures TransferJobs(db, ts, sources).Some? ==> Orderly(TransferJobs(db, ts, sources).value)
  {
    if sources != [] {
      var n := |sources| - 1;
      TransferJobsKeep(db, ts, sources[..n]);
      var before := TransferJobs(db, ts, sources[..n]);
      if before.Some? {
        AddRunningKeeps(before.value, NewJob(sources[n], TargetsOf(EntriesOf(ts, sources[n]))));
      }
    }
  }

  lemma StartDrainKeeps(db: DB, w: nat)
    requires Orderly(db) && w in db.workers
    ensures StartDrain(db, w).Some? ==> Orderly(StartDrain(db, w).value)
  {
    var ts := Plan(db, w);
    TransferJobsKeep(db, ts, Sources(ts));
    if TransferJobs(db, ts, Sources(ts)).Some? {
      var d := TransferJobs(db, ts, Sources(ts)).value;
      SetDrainingSafe(d, w);
      SetDrainingCalm(d, w);
      CalmKeeps(d, SetDraining(d, w));
    }
  }

  lemma PurgeKeeps(db: DB, w: nat)
    requires Orderly(db)
    ensures Orderly(Purge(db, w))
  {
    PurgeSafe(db, w);
    PurgeCalm(db, w);
    CalmKeeps(db, Purge(db, w));
  }

  lemma RedistributeKeeps(db: DB, w: nat)
    requires Orderly(db)
    ensures Orderly(Redistribute(db, w))
  {
    RedistributeCases(db, w);
    if w in db.workers && StartDrain(db, w).Some? {
      StartDrainKeeps(db, w);
      PurgeKeeps(StartDrain(db, w).value, w);
    }
  }

  lemma {:induction false} FinalizeKeeps(db: DB, held: set<nat>, order: seq<nat>)
    requires Orderly(db)
    ensures Orderly(Finalize(db, held, order))
  {
    if order != [] {
      var n := |order| - 1;
      FinalizeKeeps(db, held, order[..n]);
      PurgeKeeps(Finalize(db, held, order[..n]), order[n]);
    }
  }

  lemma ControlKeeps(db: DB, j: nat, command: Command)
    requires Orderly(db) && j in db.jobs
    ensures Orderly(Drive(db, j, command))
  {
    if command.Start? && db.jobs[j].state.Created? {
      FirstStartKeeps(db, j);
    } else {
      DriveSafe(db, j, command);
      ControlCalm(db, j, command);
      CalmKeeps(db, Drive(db, j, command));
    }
  }

  // ---- Every request -----------------------------------------------------------------------------

  /** The request is one an honest agent could send, or not an agent's at all. */
  ghost predicate HonestRequest(db: DB, r: Request) {
    && (r.Report? ==> HonestReport(db, r.worker, r.chunk, r.next, r.results))
    && (r.Complete? ==> r.status.Completed? && HonestComplete(db, r.worker, r.chunk))
  }

  lemma FailKeeps(db: DB, w: nat, c: nat)
    requires Orderly(db)
    ensures Orderly(CompleteChunk(db, w, c, ChunkStatus.Failed).0)
  {
    CompleteSafe(db, w, c, ChunkStatus.Failed);
    FailCalm(db, w, c);
    CalmKeeps(db, CompleteChunk(db, w, c, ChunkStatus.Failed).0);
  }

  lemma OtherKeeps(db: DB, r: Request)
    requires Orderly(db)
    requires r.Tick? || r.Register? || r.Heartbeat? || r.MarkStale?
          || r.Dismiss? || r.DismissAll? || r.DeleteItems? || r.DeleteJob?
    ensures Orderly(Apply(db, r))
  {
    ApplySafe(db, r);
    if r.Tick? || r.Register? || r.Heartbeat? || r.MarkStale? {
      WorkerRequestCalm(db, r);
    } else {
      ItemRequestCalm(db, r);
    }
    CalmKeeps(db, Apply(db, r));
  }

  lemma WorkRequestKeeps(db: DB, r: Request)
    requires Orderly(db) && HonestRequest(db, r)
    requires r.TakeLease? || r.Report? || r.Complete? || r.Fail?
    ensures Orderly(Apply(db, r))
  {
    hide Orderly, Lease, Progress, MaybeCompleteJob, HonestReport, HonestComplete;
    if r.worker in db.workers {
      match r
      case TakeLease(w, lease) => LeaseKeeps(db, w, lease);
      case Report(w, c, next, results) => ReportKeeps(db, w, c, next, results);
      case Complete(w, c, status) =>
        CompleteChunkKeeps(db, w, c);
        if c in db.chunks { FinishKeeps(CompleteChunk(db, w, c, status).0, db.chunks[c].job); }
      case Fail(w, c) => FailKeeps(db, w, c);
    }
  }

  /** Honest requests keep the database orderly. */
  lemma ApplyKeeps(db: DB, r: Request)
    requires Orderly(db) && HonestRequest(db, r)
    ensures Orderly(Apply(db, r))
  {
    hide Orderly, HonestRequest, RegisterWorker, BeatHeart, MarkStaleWorkers, Lease, Progress, MaybeCompleteJob,
         AddJob, Drive, Retry, DismissMany, WithoutJob, DropItems, Finalize, Redistribute, Purge;
    if r.TakeLease? || r.Report? || r.Complete? || r.Fail? {
      WorkRequestKeeps(db, r);
    } else if r.CreateJob? {
      if Acceptable(db, r.job) { AddJobKeeps(db, r.job); }
    } else if r.Control? {
      if r.driven in db.jobs { ControlKeeps(db, r.driven, r.command); }
    } else if r.RetryJob? {
      if r.retried in db.jobs { RetryKeeps(db, r.retried); }
    } else if r.SweepJob? {
      FinishKeeps(db, r.swept);
    } else if r.SweepDrained? {
      FinalizeKeeps(db, r.held, r.order);
    } else if r.RemoveWorker? {
      RedistributeKeeps(db, r.worker);
      PurgeKeeps(db, r.worker);
    } else {
      OtherKeeps(db, r);
    }
  }
}
