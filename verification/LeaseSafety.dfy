/** What every request keeps, whatever the agents send: foreign keys, the unique constraint, and the
    coherence of leases. */
module LeaseSafety {
  import opened Rows
  import opened Catalogue
  import opened Database
  import opened Chunking
  import opened SchedulerSpec
  import opened DrainSpec
  import opened Requests

  /** Foreign keys point at existing rows, fresh primary keys are unused. */
  ghost predicate Linked(db: DB) {
    && (forall c :: c in db.chunks ==> c < db.nextChunk && db.chunks[c].job in db.jobs)
    && (forall j :: j in db.jobs ==> j < db.nextJob && (db.jobs[j].owner.Some? ==> db.jobs[j].owner.value in db.workers))
    && (forall w :: w in db.workers ==> w < db.nextWorker)
    && (forall k :: k in db.tables.items ==>
          k.job in db.jobs && (db.tables.items[k].worker.Some? ==> db.tables.items[k].worker.value in db.workers))
    && OneDownload(db.tables)
    && (forall i :: 0 <= i < |db.log| ==> db.log[i].chunk < db.nextChunk && db.log[i].job < db.nextJob)
  }

  /** The worker's lease on the chunk stands. */
  predicate HasLease(db: DB, w: nat, c: nat) {
    c in db.chunks && db.chunks[c].status.Leased? && db.chunks[c].holder == Some(w)
  }

  /** A chunk is leased iff it has a holder iff it has an expiry. The holder exists, is not draining,
      is the latest grantee, and may work on the chunk's job. */
  ghost predicate CoherentChunk(db: DB, c: nat)
    requires c in db.chunks
  {
    var ch := db.chunks[c];
    && (ch.status.Leased? <==> ch.holder.Some?)
    && (ch.status.Leased? <==> ch.expires.Some?)
    && !ch.status.Failed?
    && (ch.holder.Some? ==>
          && ch.holder.value in db.workers && !db.workers[ch.holder.value].state.Draining?
          && ch.job in db.jobs && Eligible(db.jobs[ch.job], ch.holder.value)
          && LastGrantee(db.log, c) == ch.holder)
  }

  ghost predicate Coherent(db: DB) {
    forall c :: c in db.chunks ==> CoherentChunk(db, c)
  }

  ghost predicate Safe(db: DB) {
    Linked(db) && Coherent(db) && UniqueRanges(db.chunks)
  }

  // ---- Requests that hand out nothing ------------------------------------------------------------

  /** The chunk keeps its lease, or loses it. */
  predicate Eased(x: Chunk, y: Chunk) {
    && SameRange(x, y)
    && ((y.status == x.status && y.holder == x.holder && (y.expires.Some? <==> x.expires.Some?))
        || ((y.status.Pending? || y.status.Completed?) && y.holder.None? && y.expires.None?))
  }

  /** No lease is granted: chunks keep or lose theirs, jobs keep or lose their owner. */
  ghost predicate HandsOutNothing(db: DB, after: DB) {
    && after.log == db.log
    && (forall c :: c in after.chunks ==>
          && c in db.chunks && Eased(db.chunks[c], after.chunks[c])
          && (after.chunks[c].holder.Some? ==>
                after.chunks[c].holder.value in after.workers && !after.workers[after.chunks[c].holder.value].state.Draining?))
    && (forall j :: j in db.jobs && j in after.jobs ==>
          after.jobs[j].owner == db.jobs[j].owner || after.jobs[j].owner.None?)
  }

  lemma HandingOutNothingIsSafe(db: DB, after: DB)
    requires Safe(db) && HandsOutNothing(db, after) && Linked(after)
    ensures Safe(after)
  {
    forall c | c in after.chunks ensures CoherentChunk(after, c) {
      assert CoherentChunk(db, c);
    }
    forall c, d | c in after.chunks && d in after.chunks && SameRange(after.chunks[c], after.chunks[d])
      ensures c == d
    {
      assert SameRange(db.chunks[c], db.chunks[d]);
    }
  }

  lemma HoldersStand(db: DB)
    requires Safe(db)
    ensures forall c :: c in db.chunks && db.chunks[c].holder.Some? ==>
              db.chunks[c].holder.value in db.workers && !db.workers[db.chunks[c].holder.value].state.Draining?
    ensures forall c :: c in db.chunks ==> (db.chunks[c].status.Leased? <==> db.chunks[c].holder.Some?)
    ensures forall c :: c in db.chunks ==> (db.chunks[c].status.Leased? <==> db.chunks[c].expires.Some?)
  {
    forall c | c in db.chunks ensures CoherentChunk(db, c) {}
  }

  lemma RegisterSafe(db: DB, name: string)
    requires Safe(db)
    ensures Safe(RegisterWorker(db, name))
  {
    hide Coherent, UniqueRanges;
    HoldersStand(db);
    HandingOutNothingIsSafe(db, RegisterWorker(db, name));
  }

  lemma BeatShape(db: DB, w: nat, active: Option<nat>, lease: int, sample: Option<Option<real>>)
    requires w in db.workers
    ensures var after := BeatHeart(db, w, active, lease, sample);
            && after == db.(workers := after.workers, chunks := after.chunks)
            && (forall v :: v in after.workers <==> v in db.workers)
            && (forall v :: v in db.workers ==> (after.workers[v].state.Draining? <==> db.workers[v].state.Draining?))
            && (forall c :: c in after.chunks <==> c in db.chunks)
            && (forall c :: c in db.chunks ==>
                  after.chunks[c] == db.chunks[c]
                  || (db.chunks[c].status.Leased? && after.chunks[c] == db.chunks[c].(expires := Some(db.now + lease))))
  {
  }

  lemma HeartbeatSafe(db: DB, w: nat, active: Option<nat>, lease: int, sample: Option<Option<real>>)
    requires Safe(db) && w in db.workers
    ensures Safe(BeatHeart(db, w, active, lease, sample))
  {
    hide BeatHeart, Coherent, UniqueRanges;
    HoldersStand(db);
    BeatShape(db, w, active, lease, sample);
    HandingOutNothingIsSafe(db, BeatHeart(db, w, active, lease, sample));
  }

  lemma SweepStaleSafe(db: DB, offlineAfter: int)
    requires Safe(db)
    ensures Safe(MarkStaleWorkers(db, offlineAfter))
  {
    HoldersStand(db);
    HandingOutNothingIsSafe(db, MarkStaleWorkers(db, offlineAfter));
  }

  lemma ReclaimLinked(db: DB)
    requires Linked(db)
    ensures Linked(ReclaimExpired(db))
  {
    hide OneDownload;
  }

  lemma ReclaimSafe(db: DB)
    requires Safe(db)
    ensures Safe(ReclaimExpired(db))
  {
    hide Linked, Coherent, UniqueRanges;
    HoldersStand(db);
    ReclaimLinked(db);
    HandingOutNothingIsSafe(db, ReclaimExpired(db));
  }

  lemma CompleteSafe(db: DB, w: nat, c: nat, status: ChunkStatus)
    requires Safe(db)
    ensures Safe(CompleteChunk(db, w, c, status).0)
  {
    hide Linked, Coherent, UniqueRanges;
    HoldersStand(db);
    CompleteLinked(db, w, c, status);
    HandingOutNothingIsSafe(db, CompleteChunk(db, w, c, status).0);
  }

  lemma CompleteLinked(db: DB, w: nat, c: nat, status: ChunkStatus)
    requires Linked(db)
    ensures Linked(CompleteChunk(db, w, c, status).0)
  {
    hide OneDownload;
  }

  lemma FinishSafe(db: DB, j: nat)
    requires Safe(db)
    ensures Safe(MaybeCompleteJob(db, j))
  {
    HoldersStand(db);
    HandingOutNothingIsSafe(db, MaybeCompleteJob(db, j));
  }

  lemma DropSafe(db: DB, gone: set<Key>)
    requires Safe(db)
    ensures Safe(db.(tables := DropItems(db.tables, gone)))
  {
    hide Coherent, UniqueRanges;
    HoldersStand(db);
    HandingOutNothingIsSafe(db, db.(tables := DropItems(db.tables, gone)));
  }

  lemma DismissSafe(db: DB, of: Option<nat>)
    requires Safe(db)
    ensures Safe(DismissMany(db, of))
  {
    hide Safe;
    RestatusedSafe(db, DismissMany(db, of).tables.items);
    assert DismissMany(db, of) == db.(tables := db.tables.(items := DismissMany(db, of).tables.items));
  }

  /** New statuses for some of the items endanger nothing. */
  lemma RestatusedSafe(db: DB, items: map<Key, Item>)
    requires Safe(db)
    requires forall k :: k in items ==> k in db.tables.items && items[k].worker == db.tables.items[k].worker
    ensures Safe(db.(tables := db.tables.(items := items)))
  {
    hide Coherent, UniqueRanges;
    HoldersStand(db);
    HandingOutNothingIsSafe(db, db.(tables := db.tables.(items := items)));
  }

  lemma DeleteJobSafe(db: DB, j: nat)
    requires Safe(db) && j in db.jobs
    ensures Safe(WithoutJob(db, j))
  {
    hide Coherent, UniqueRanges;
    HoldersStand(db);
    HandingOutNothingIsSafe(db, WithoutJob(db, j));
  }

  /** What deleting a worker leaves: its completed items are gone, its leases are returned, and no
      row mentions it. */
  ghost predicate Purged(db: DB, after: DB, w: nat) {
    && after.log == db.log
    && after.nextJob == db.nextJob && after.nextChunk == db.nextChunk && after.nextWorker == db.nextWorker
    && (forall c :: c in after.chunks <==> c in db.chunks)
    && (forall c :: c in after.chunks ==> after.chunks[c] == ReleasedFrom(db.chunks[c], w))
    && (forall j :: j in after.jobs <==> j in db.jobs)
    && (forall j :: j in after.jobs ==> after.jobs[j] == db.jobs[j].(owner := Unset(db.jobs[j].owner, w)))
    && (forall v :: v in after.workers <==> v in db.workers && v != w)
    && (forall v :: v in after.workers ==> after.workers[v] == db.workers[v])
    && PurgedItems(db.tables, after.tables, w)
  }

  ghost predicate PurgedItems(t: Tables, u: Tables, w: nat) {
    && (OneDownload(t) ==> OneDownload(u))
    && (forall k :: k in u.items <==> k in t.items && !CompletedOn(t, w, k))
    && (forall k :: k in u.items ==>
          u.items[k].worker == Unset(t.items[k].worker, w) && u.items[k].status == t.items[k].status)
  }

  lemma PurgeMeans(db: DB, w: nat)
    ensures Purged(db, Purge(db, w), w)
  {
    assert PurgedItems(db.tables, Purge(db, w).tables, w);
  }

  lemma PurgeLinked(db: DB, after: DB, w: nat)
    requires Linked(db) && Purged(db, after, w)
    ensures Linked(after)
  {
  }

  lemma PurgeCoherent(db: DB, after: DB, w: nat)
    requires Safe(db) && Purged(db, after, w)
    ensures HandsOutNothing(db, after)
  {
    hide Coherent, UniqueRanges, Purge, PurgedItems, OneDownload;
    HoldersStand(db);
  }

  lemma PurgeSafe(db: DB, w: nat)
    requires Safe(db)
    ensures Safe(Purge(db, w))
  {
    hide Linked, Coherent, UniqueRanges, Purge, Purged;
    var after := Purge(db, w);
    PurgeMeans(db, w);
    PurgeLinked(db, after, w);
    PurgeCoherent(db, after, w);
    HandingOutNothingIsSafe(db, after);
  }

  lemma AddJobSafe(db: DB, job: Job)
    requires Safe(db) && (job.owner.Some? ==> job.owner.value in db.workers)
    ensures Safe(AddJob(db, job))
  {
    HoldersStand(db);
    HandingOutNothingIsSafe(db, AddJob(db, job));
  }

  lemma WithJobSafe(db: DB, j: nat, job: Job)
    requires Safe(db) && j in db.jobs && job.owner == db.jobs[j].owner
    ensures Safe(WithJob(db, j, job))
  {
    HoldersStand(db);
    HandingOutNothingIsSafe(db, WithJob(db, j, job));
  }

  // ---- Leasing -----------------------------------------------------------------------------------

  lemma GrantSafe(db: DB, c: nat, w: nat, seconds: int)
    requires Safe(db) && c in Takeable(db, w)
    requires w in db.workers && !db.workers[w].state.Draining?
    ensures Safe(Grant(db, c, w, seconds))
  {
    var after := Grant(db, c, w, seconds);
    AppendEvent(db.log, Granted(c, db.chunks[c].job, w));
    forall d | d in after.chunks ensures CoherentChunk(after, d) {
      assert CoherentChunk(db, d);
    }
    forall d, e | d in after.chunks && e in after.chunks && SameRange(after.chunks[d], after.chunks[e])
      ensures d == e
    {
      assert SameRange(db.chunks[d], db.chunks[e]);
    }
  }

  lemma NoClash(chunks: map<nat, Chunk>, row: Chunk)
    requires !Clash(chunks, [row])
    ensures forall c :: c in chunks ==> !SameRange(chunks[c], row)
  {
    forall c | c in chunks ensures !SameRange(chunks[c], row) {
      assert [row][0] == row;
    }
  }

  lemma CutSafe(db: DB, j: nat)
    requires Safe(db) && j in db.jobs && HasUncut(db.jobs[j])
    requires !Clash(db.chunks, [NextPiece(j, db.jobs[j])])
    ensures Safe(CutPiece(db, j))
  {
    var after := CutPiece(db, j);
    var piece := NextPiece(j, db.jobs[j]);
    NoClash(db.chunks, piece);
    AppendEvent(db.log, Cut(db.nextChunk, j, piece.lo, piece.hi));
    forall d | d in after.chunks ensures CoherentChunk(after, d) {
      if d in db.chunks { assert CoherentChunk(db, d); }
    }
    forall d, e | d in after.chunks && e in after.chunks && SameRange(after.chunks[d], after.chunks[e])
      ensures d == e
    {
      if d in db.chunks && e in db.chunks {
        assert SameRange(db.chunks[d], db.chunks[e]);
      }
    }
  }

  lemma LeaseSafe(db: DB, w: nat, seconds: int)
    requires Safe(db) && w in db.workers
    ensures Safe(Lease(db, w, seconds).0)
  {
    var d := ReclaimExpired(db);
    ReclaimSafe(db);
    if !db.workers[w].state.Draining? && HasSpace(d.workers[w]) {
      if Takeable(d, w) != {} {
        GrantSafe(d, Least(Takeable(d, w)), w, seconds);
      } else if Cuttable(d, w) != {} {
        var j := Least(Cuttable(d, w));
        if !Clash(d.chunks, [NextPiece(j, d.jobs[j])]) {
          CutSafe(d, j);
          var e := CutPiece(d, j);
          assert d.nextChunk in Takeable(e, w);
          GrantSafe(e, d.nextChunk, w, seconds);
        }
      }
    }
  }

  // ---- Progress ----------------------------------------------------------------------------------

  lemma {:induction false} RecordedRowsLinked(db: DB, who: Reporter, rs: seq<Result>)
    requires Linked(db) && who.job in db.jobs && who.worker in db.workers
    ensures var t := RecordAll(db.tables, who, rs);
            && OneDownload(t)
            && (forall k :: k in t.items ==>
                  k.job in db.jobs && (t.items[k].worker.Some? ==> t.items[k].worker.value in db.workers))
  {
    RecordAllKeeps(db.tables, who, rs);
    RecordAllItems(db.tables, who, rs);
  }

  lemma ProgressCoherent(db: DB, w: nat, c: nat, next: int, rs: seq<Result>)
    requires Coherent(db) && w in db.workers && Holds(db, w, c)
    ensures Coherent(Progress(db, w, c, next, rs).0)
  {
    hide RecordAll;
    var after := Progress(db, w, c, next, rs).0;
    AppendEvent(db.log, Accepted(c, db.chunks[c].job, w, Ids(rs), next));
    forall d | d in after.chunks ensures CoherentChunk(after, d) {
      assert CoherentChunk(db, d);
    }
  }

  lemma ProgressLinked(db: DB, w: nat, c: nat, next: int, rs: seq<Result>)
    requires Linked(db) && w in db.workers && Holds(db, w, c)
    ensures Linked(Progress(db, w, c, next, rs).0)
  {
    hide RecordAll, OneDownload;
    RecordedRowsLinked(db, ReporterOf(db, w, db.chunks[c].job), rs);
  }

  lemma ProgressUnique(db: DB, w: nat, c: nat, next: int, rs: seq<Result>)
    requires UniqueRanges(db.chunks) && w in db.workers && Holds(db, w, c)
    ensures UniqueRanges(Progress(db, w, c, next, rs).0.chunks)
  {
    hide RecordAll;
    var after := Progress(db, w, c, next, rs).0;
    forall d, e | d in after.chunks && e in after.chunks && SameRange(after.chunks[d], after.chunks[e])
      ensures d == e
    {
      assert SameRange(db.chunks[d], db.chunks[e]);
    }
  }

  lemma ProgressSafe(db: DB, w: nat, c: nat, next: int, rs: seq<Result>)
    requires Safe(db) && w in db.workers
    ensures Safe(Progress(db, w, c, next, rs).0)
  {
    hide Progress, Linked, Coherent, UniqueRanges;
    if Holds(db, w, c) {
      ProgressLinked(db, w, c, next, rs);
      ProgressCoherent(db, w, c, next, rs);
      ProgressUnique(db, w, c, next, rs);
    } else {
      NotHeld(db, w, c, next, rs);
    }
  }

  /** A report about a chunk the worker does not hold changes nothing. */
  lemma NotHeld(db: DB, w: nat, c: nat, next: int, rs: seq<Result>)
    requires w in db.workers && !Holds(db, w, c)
    ensures Progress(db, w, c, next, rs).0 == db
  {
  }

  // ---- Starting ----------------------------------------------------------------------------------

  lemma {:induction false} PreCutUnique(chunks: map<nat, Chunk>, first: nat, rows: seq<Chunk>)
    requires UniqueRanges(chunks) && !Clash(chunks, rows)
    requires forall c :: c in chunks ==> c < first
    ensures UniqueRanges(Inserted(chunks, first, rows))
  {
    InsertedRows(chunks, first, rows);
    forall c, i | c in chunks && 0 <= i < |rows| ensures !SameRange(chunks[c], rows[i]) {}
    forall i, k | 0 <= i < k < |rows| ensures !SameRange(rows[i], rows[k]) {}
  }

  /** `after` is `db` with `rows` inserted. */
  ghost predicate Grown(db: DB, after: DB, j: nat, rows: seq<Chunk>) {
    && after == db.(chunks := after.chunks, nextChunk := db.nextChunk + |rows|)
    && (forall c :: c in db.chunks ==> c in after.chunks && after.chunks[c] == db.chunks[c])
    && (forall c :: c in after.chunks && c !in db.chunks ==>
          db.nextChunk <= c < db.nextChunk + |rows| && after.chunks[c] == rows[c - db.nextChunk])
  }

  lemma {:induction false} InsertedGrows(db: DB, j: nat, rows: seq<Chunk>)
    requires Linked(db)
    ensures Grown(db, db.(chunks := Inserted(db.chunks, db.nextChunk, rows), nextChunk := db.nextChunk + |rows|), j, rows)
  {
    InsertedRows(db.chunks, db.nextChunk, rows);
  }

  lemma GrownCoherent(db: DB, after: DB, j: nat, rows: seq<Chunk>)
    requires Safe(db) && j in db.jobs && Grown(db, after, j, rows)
    requires AllFresh(rows, j)
    ensures Coherent(after) && Linked(after)
  {
    forall c | c in after.chunks ensures CoherentChunk(after, c) {
      if c in db.chunks { assert CoherentChunk(db, c); }
    }
  }

  lemma {:induction false} PreCutSafe(db: DB, j: nat, rows: seq<Chunk>)
    requires Safe(db) && j in db.jobs
    requires !Clash(db.chunks, rows)
    requires AllFresh(rows, j)
    ensures Safe(db.(chunks := Inserted(db.chunks, db.nextChunk, rows), nextChunk := db.nextChunk + |rows|))
  {
    var after := db.(chunks := Inserted(db.chunks, db.nextChunk, rows), nextChunk := db.nextChunk + |rows|);
    InsertedGrows(db, j, rows);
    GrownCoherent(db, after, j, rows);
    PreCutUnique(db.chunks, db.nextChunk, rows);
  }

  lemma InitializeSafe(db: DB, j: nat)
    requires Safe(db) && j in db.jobs
    ensures Initialize(db, j).Some? ==>
              Safe(Initialize(db, j).value) && Initialize(db, j).value.jobs[j].owner == db.jobs[j].owner
  {
    hide Safe, PreCut, Clash, FirstOpen, Inserted;
    var job := db.jobs[j];
    if job.targets == [] {
      if job.cursor.None? {
        WithJobSafe(db, j, job.(cursor := Some(if job.lo.Some? then job.lo.value else 0)));
      }
    } else if HasOpenEnded(job.targets) {
      var t := FirstOpen(job.targets);
      WithJobSafe(db, j, job.(lo := Some(t.lo), hi := None, cursor := Some(t.lo)));
    } else {
      var rows := PreCut(j, job.targets, OnlineCount(db));
      if !Clash(db.chunks, rows) {
        WithJobSafe(db, j, job.(cursor := None));
        PreCutCovers(j, job.targets, OnlineCount(db));
        PreCutSafe(WithJob(db, j, job.(cursor := None)), j, rows);
      }
    }
  }

  lemma DriveSafe(db: DB, j: nat, command: Command)
    requires Safe(db) && j in db.jobs
    ensures Safe(Drive(db, j, command))
  {
    var job := db.jobs[j];
    if Allowed(command, job.state) {
      if command.Start? && job.state.Created? {
        InitializeSafe(db, j);
        if Initialize(db, j).Some? {
          var d := Initialize(db, j).value;
          WithJobSafe(d, j, d.jobs[j].(state := JobState.Running));
        }
      } else {
        WithJobSafe(db, j, job.(state := NewState(command)));
      }
    }
  }

  // ---- Retrying ----------------------------------------------------------------------------------

  /** Only the chunk `c` changes: it is pending, and new unless it had the same range before. */
  ghost predicate Requeues(db: DB, after: DB, k: Key, c: nat) {
    && after.jobs == db.jobs && after.workers == db.workers
    && after.nextJob == db.nextJob && after.nextWorker == db.nextWorker && db.nextChunk <= after.nextChunk
    && after.log == db.log + [Event.Requeued(c, k.job)]
    && c in after.chunks && after.chunks == db.chunks[c := after.chunks[c]] && c < after.nextChunk
    && after.chunks[c].status.Pending? && after.chunks[c].holder.None? && after.chunks[c].expires.None?
    && after.chunks[c].job == k.job
    && (if c in db.chunks then SameRange(db.chunks[c], after.chunks[c])
        else c == db.nextChunk && forall d :: d in db.chunks ==> !SameRange(db.chunks[d], after.chunks[c]))
    && after.tables == db.tables.(items := after.tables.items)
    && (forall q :: q in after.tables.items <==> q in db.tables.items)
    && (forall q :: q in db.tables.items ==> after.tables.items[q].worker == db.tables.items[q].worker)
  }

  /** A retry either finds nothing, or re-queues its list and reopens a finished job. */
  lemma {:induction false} RetryCases(db: DB, i: nat)
    requires i in db.jobs
    ensures Retry(db, i) == db || Retry(db, i) == RequeueAll(db, RetryList(db, i))
         || ((db.jobs[i].state.Completed? || db.jobs[i].state.Failed?)
             && Retry(db, i) == WithJob(RequeueAll(db, RetryList(db, i)), i, db.jobs[i].(state := JobState.Running)))
  {
    hide RequeueAll, RetryList;
  }

  lemma RequeueShape(db: DB, k: Key) returns (c: nat)
    requires Linked(db) && k in db.tables.items
    ensures Requeues(db, RequeueOne(db, k), k, c)
  {
    hide Linked;
    var singles := SingleChunks(db, k.job, k.id);
    c := if singles == {} then db.nextChunk else Least(singles);
    forall d | d in db.chunks && db.chunks[d].job == k.job && db.chunks[d].lo == k.id && db.chunks[d].hi == k.id
      ensures d in singles {}
    ChunksBelow(db);
  }

  lemma ChunksBelow(db: DB)
    requires Linked(db)
    ensures forall c :: c in db.chunks ==> c < db.nextChunk
  {
  }

  lemma RequeuesLinked(db: DB, after: DB, k: Key, c: nat)
    requires Linked(db) && k in db.tables.items && Requeues(db, after, k, c)
    ensures Linked(after)
  {
    hide SameRange;
    AppendEvent(db.log, Event.Requeued(c, k.job));
    assert OneDownload(after.tables);
  }

  lemma RequeuesCoherent(db: DB, after: DB, k: Key, c: nat)
    requires Coherent(db) && Requeues(db, after, k, c)
    ensures Coherent(after)
  {
    AppendEvent(db.log, Event.Requeued(c, k.job));
    forall d | d in after.chunks ensures CoherentChunk(after, d) {
      if d in db.chunks { assert CoherentChunk(db, d); }
    }
  }

  lemma RequeuesUnique(db: DB, after: DB, k: Key, c: nat)
    requires UniqueRanges(db.chunks) && Requeues(db, after, k, c)
    ensures UniqueRanges(after.chunks)
  {
    forall d, e | d in after.chunks && e in after.chunks && SameRange(after.chunks[d], after.chunks[e])
      ensures d == e
    {
      if d in db.chunks && e in db.chunks {
        assert SameRange(db.chunks[d], db.chunks[e]);
      }
    }
  }

  lemma RequeueOneSafe(db: DB, k: Key)
    requires Safe(db) && k in db.tables.items
    ensures Safe(RequeueOne(db, k))
  {
    hide Linked, Coherent, UniqueRanges, Requeues, RequeueOne;
    var c := RequeueShape(db, k);
    RequeuesLinked(db, RequeueOne(db, k), k, c);
    RequeuesCoherent(db, RequeueOne(db, k), k, c);
    RequeuesUnique(db, RequeueOne(db, k), k, c);
  }

  lemma {:induction false} RequeueAllSafe(db: DB, ks: seq<Key>)
    requires Safe(db) && forall i :: 0 <= i < |ks| ==> ks[i] in db.tables.items
    ensures Safe(RequeueAll(db, ks)) && RequeueAll(db, ks).jobs == db.jobs
  {
    if ks != [] {
      RequeueAllSafe(db, ks[..|ks| - 1]);
      RequeueOneSafe(RequeueAll(db, ks[..|ks| - 1]), ks[|ks| - 1]);
    }
  }

  lemma RetrySafe(db: DB, j: nat)
    requires Safe(db) && j in db.jobs
    ensures Safe(Retry(db, j))
  {
    hide Safe, RequeueAll, RetryList;
    var ks := RetryList(db, j);
    RequeueAllSafe(db, ks);
    var d := RequeueAll(db, ks);
    WithJobSafe(d, j, d.jobs[j].(state := JobState.Running));
  }

  // ---- Draining ----------------------------------------------------------------------------------

  lemma AddRunningSafe(db: DB, job: Job)
    requires Safe(db) && job.owner.None?
    ensures AddRunning(db, job).Some? ==> Safe(AddRunning(db, job).value)
  {
    var j := db.nextJob;
    var d := AddJob(db, job);
    AddJobSafe(db, job);
    InitializeSafe(d, j);
    if Initialize(d, j).Some? {
      var e := Initialize(d, j).value;
      WithJobSafe(e, j, e.jobs[j].(state := JobState.Running));
    }
  }

  lemma {:induction false} TransferJobsSafe(db: DB, ts: seq<Transfer>, sources: seq<string>)
    requires Safe(db)
    ensures TransferJobs(db, ts, sources).Some? ==> Safe(TransferJobs(db, ts, sources).value)
  {
    if sources != [] {
      var before := TransferJobs(db, ts, sources[..|sources| - 1]);
      TransferJobsSafe(db, ts, sources[..|sources| - 1]);
      if before.Some? {
        var source := sources[|sources| - 1];
        AddRunningSafe(before.value, NewJob(source, TargetsOf(EntriesOf(ts, source))));
      }
    }
  }

  lemma SetDrainingSafe(db: DB, w: nat)
    requires Safe(db) && w in db.workers
    ensures Safe(SetDraining(db, w))
  {
    hide Coherent, UniqueRanges;
    HoldersStand(db);
    HandingOutNothingIsSafe(db, SetDraining(db, w));
  }

  lemma StartDrainSafe(db: DB, w: nat)
    requires Safe(db) && w in db.workers
    ensures StartDrain(db, w).Some? ==> Safe(StartDrain(db, w).value)
  {
    var ts := Plan(db, w);
    TransferJobsSafe(db, ts, Sources(ts));
    if TransferJobs(db, ts, Sources(ts)).Some? {
      SetDrainingSafe(TransferJobs(db, ts, Sources(ts)).value, w);
    }
  }

  lemma RedistributeSafe(db: DB, w: nat)
    requires Safe(db)
    ensures Safe(Redistribute(db, w))
  {
    RedistributeCases(db, w);
    if w in db.workers && StartDrain(db, w).Some? {
      StartDrainSafe(db, w);
      PurgeSafe(StartDrain(db, w).value, w);
    }
  }

  lemma {:induction false} FinalizeSafe(db: DB, held: set<nat>, order: seq<nat>)
    requires Safe(db)
    ensures Safe(Finalize(db, held, order))
  {
    if order != [] {
      FinalizeSafe(db, held, order[..|order| - 1]);
      PurgeSafe(Finalize(db, held, order[..|order| - 1]), order[|order| - 1]);
    }
  }

  // ---- Every request, every run ------------------------------------------------------------------

  lemma ApplySafe(db: DB, r: Request)
    requires Safe(db)
    ensures Safe(Apply(db, r))
  {
    hide Safe, RegisterWorker, BeatHeart, MarkStaleWorkers, Lease, Progress, MaybeCompleteJob, AddJob, Drive, Retry,
         DismissMany, WithoutJob, DropItems, Finalize, Redistribute, Purge;
    match r
    case Tick(seconds) => TickSafe(db, seconds);
    case Register(name) => RegisterSafe(db, name);
    case Heartbeat(w, active, lease, sample) => if w in db.workers { HeartbeatSafe(db, w, active, lease, sample); }
    case MarkStale(offlineAfter) => SweepStaleSafe(db, offlineAfter);
    case TakeLease(w, lease) => if w in db.workers { LeaseSafe(db, w, lease); }
    case Report(w, c, next, results) => if w in db.workers { ProgressSafe(db, w, c, next, results); }
    case Complete(w, c, status) =>
      CompleteSafe(db, w, c, status);
      if c in db.chunks { FinishSafe(CompleteChunk(db, w, c, status).0, db.chunks[c].job); }
    case Fail(w, c) => CompleteSafe(db, w, c, ChunkStatus.Failed);
    case CreateJob(job) => if Acceptable(db, job) { AddJobSafe(db, job); }
    case Control(j, command) => if j in db.jobs { DriveSafe(db, j, command); }
    case RetryJob(j) => if j in db.jobs { RetrySafe(db, j); }
    case Dismiss(k) => DismissOneSafe(db, k);
    case DismissAll(of) => DismissSafe(db, of);
    case DeleteJob(j) => if j in db.jobs { DeleteJobSafe(db, j); }
    case DeleteItems(items) => DropSafe(db, items);
    case SweepJob(j) => FinishSafe(db, j);
    case SweepDrained(held, order) => FinalizeSafe(db, held, order);
    case RemoveWorker(w, redistribute) => RedistributeSafe(db, w); PurgeSafe(db, w);
  }

  lemma TickSafe(db: DB, seconds: nat)
    requires Safe(db)
    ensures Safe(db.(now := db.now + seconds))
  {
    HoldersStand(db);
    HandingOutNothingIsSafe(db, db.(now := db.now + seconds));
  }

  // ---- What simple requests do to chunks ---------------------------------------------------------

  /** Chunks stay as they are, or go with their job. */
  lemma RestShape(db: DB, r: Request)
    requires r.Tick? || r.Register? || r.MarkStale? || r.CreateJob? || r.Dismiss? || r.DismissAll?
          || r.DeleteJob? || r.DeleteItems? || r.SweepJob?
    ensures var after := Apply(db, r);
            && after.log == db.log && after.nextChunk == db.nextChunk
            && (forall c :: c in after.chunks ==> c in db.chunks && after.chunks[c] == db.chunks[c])
            && (forall c :: c in db.chunks && db.chunks[c].job in after.jobs ==> c in after.chunks)
  {
    hide Finishable, RegisterWorker, MarkStaleWorkers, Acceptable, DropItems, Dismissed;
    if r.Register? || r.MarkStale? { RegisterShape(db, r); }
  }

  lemma RegisterShape(db: DB, r: Request)
    requires r.Register? || r.MarkStale?
    ensures var after := Apply(db, r); after == db.(workers := after.workers, nextWorker := after.nextWorker)
  {
  }

  /** A completion or a failure gives its chunk up where it stands, or changes none. */
  lemma CloseShape(db: DB, r: Request)
    requires r.Complete? || r.Fail?
    ensures var after := Apply(db, r);
            && after.log == db.log && after.nextChunk == db.nextChunk
            && (forall c :: c in after.chunks <==> c in db.chunks)
            && (forall c :: c in db.chunks ==>
                  after.chunks[c] == db.chunks[c]
                  || (after.chunks[c].holder.None? && !after.chunks[c].status.Leased?
                      && SameRange(db.chunks[c], after.chunks[c]) && after.chunks[c].next == db.chunks[c].next))
  {
    hide Finishable;
  }

  lemma CutIsNew(db: DB, i: nat)
    requires i in db.jobs && HasUncut(db.jobs[i])
    ensures db.nextChunk in CutPiece(db, i).chunks
  {
  }

  /** A lease changes neither items nor workers. */
  lemma LeaseShape(db: DB, w: nat, lease: int)
    requires w in db.workers
    ensures var after := Lease(db, w, lease).0;
            && after.tables == db.tables && after.workers == db.workers
            && after.nextJob == db.nextJob && after.nextWorker == db.nextWorker && after.now == db.now
  {
    hide Clash, HasSpace, Takeable, Cuttable;
  }

  lemma DismissOneSafe(db: DB, k: Key)
    requires Safe(db)
    ensures Safe(Apply(db, Dismiss(k)))
  {
    hide Safe;
    if k in db.tables.items { RestatusedSafe(db, db.tables.items[k := Dismissed(db.tables.items[k])]); }
  }

  /** Whatever requests arrive, in whatever order and with whatever content, every state reached from
      an empty database has coherent leases. */
  lemma {:induction false} EveryRunIsSafe(rs: seq<Request>)
    ensures Safe(Run(EMPTY, rs))
  {
    if rs != [] {
      EveryRunIsSafe(rs[..|rs| - 1]);
      ApplySafe(Run(EMPTY, rs[..|rs| - 1]), rs[|rs| - 1]);
    }
  }
}
