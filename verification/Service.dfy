/** The coordinator as a service over mutable tables. Every method is one transaction; its contract ties
    the new tables to the specification function of the same operation. */
module Service {
  import opened Rows
  import opened Catalogue
  import opened Database
  import opened Chunking
  import opened SchedulerSpec
  import opened DrainSpec
  import opened DrainPlan
  import opened Requests
  import opened LeaseSafety

  /** Item primary keys are distinct, fresh ones unused. */
  ghost predicate Keyed(t: Tables) {
    && (forall k :: k in t.items ==> t.items[k].pk < t.nextItem)
    && (forall k, q :: k in t.items && q in t.items && t.items[k].pk == t.items[q].pk ==> k == q)
  }

  class Coordinator {
    var jobs: map<nat, Job>
    var chunks: map<nat, Chunk>
    var items: map<Key, Item>
    var metas: map<Key, Meta>
    var downloads: map<nat, Download>
    var files: map<FileKey, FileRow>
    var groups: set<GroupLink>
    var workers: map<nat, Worker>
    var nextJob: nat
    var nextChunk: nat
    var nextItem: nat
    var nextDownload: nat
    var nextWorker: nat
    var now: int
    ghost var log: seq<Event>

    ghost function Library(): Tables
      reads this
    {
      Tables(items, metas, downloads, files, groups, nextItem, nextDownload)
    }

    /** The value the tables and the history hold. */
    ghost function State(): DB
      reads this
    {
      DB(jobs, chunks, Library(), workers, nextJob, nextChunk, nextWorker, now, log)
    }

    ghost predicate Valid()
      reads this
    {
      Safe(State()) && Keyed(Library())
    }

    constructor ()
      ensures State() == EMPTY && Valid()
    {
      jobs, chunks, items, metas, downloads, files := map[], map[], map[], map[], map[], map[];
      groups, workers := {}, map[];
      nextJob, nextChunk, nextItem, nextDownload, nextWorker, now := 0, 0, 0, 0, 0, 0;
      log := [];
    }

    // ---- Starting a job --------------------------------------------------------------------------

    method OnlineWorkerCount() returns (n: nat)
      ensures n == OnlineCount(State())
    {
      n := |set w | w in workers && workers[w].state.Online?|;
      if n == 0 { n := 3; }
    }

    /** Insert the rows one by one; a row that violates the unique constraint undoes them all. */
    method Flush(rows: seq<Chunk>) returns (ok: bool)
      requires forall c: nat :: c in chunks ==> c < nextChunk
      modifies `chunks, `nextChunk
      ensures ok <==> !Clash(old(chunks), rows)
      ensures ok ==> chunks == Inserted(old(chunks), old(nextChunk), rows) && nextChunk == old(nextChunk) + |rows|
      ensures !ok ==> chunks == old(chunks) && nextChunk == old(nextChunk)
    {
      var table := chunks;
      var i := 0;
      while i < |rows|
        invariant 0 <= i <= |rows| && chunks == old(chunks) && nextChunk == old(nextChunk)
        invariant table == Inserted(chunks, nextChunk, rows[..i])
        invariant !Clash(chunks, rows[..i])
      {
        InsertedRows(chunks, nextChunk, rows[..i]);
        ClashLast(chunks, nextChunk, rows[..i], rows[i]);
        assert rows[..i + 1] == rows[..i] + [rows[i]];
        if Occupied(table, rows[i]) {
          ClashGrows(chunks, rows[..i + 1], rows);
          return false;
        }
        table := table[nextChunk + i := rows[i]];
        i := i + 1;
      }
      assert rows[..i] == rows;
      chunks, nextChunk := table, nextChunk + |rows|;
      ok := true;
    }

    /** Cut one range into blocks, appended to the rows to be inserted. */
    method CutRange(j: nat, lo: int, hi: int, size: int, rows: seq<Chunk>) returns (all: seq<Chunk>)
      requires size >= 1
      ensures all == rows + AsChunks(j, Tiles(lo, hi, size))
    {
      all := rows;
      var start := lo;
      while start <= hi
        invariant all + AsChunks(j, Tiles(start, hi, size)) == rows + AsChunks(j, Tiles(lo, hi, size))
        decreases hi + 1 - start
      {
        var end := if start + size - 1 <= hi then start + size - 1 else hi;
        assert AsChunks(j, Tiles(start, hi, size))
            == [NewChunk(j, Interval(start, end), None)] + AsChunks(j, Tiles(end + 1, hi, size));
        all := all + [Chunk(j, start, end, start, None, ChunkStatus.Pending, None, None, 0)];
        start := end + 1;
      }
      assert AsChunks(j, Tiles(start, hi, size)) == [];
    }

    method CutSpans(j: nat, targets: seq<Target>, count: nat) returns (rows: seq<Chunk>)
      requires !HasOpenEnded(targets)
      ensures rows == ChunksOf(j, targets, false, count)
    {
      rows := [];
      var i := 0;
      while i < |targets|
        invariant 0 <= i <= |targets|
        invariant rows == ChunksOf(j, targets[..i], false, count)
      {
        assert targets[..i + 1][..i] == targets[..i];
        assert targets[i] in targets;
        if targets[i].Span? {
          var lo, hi := targets[i].lo, targets[i].hi.value;
          if lo > hi { lo, hi := hi, lo; }
          rows := CutRange(j, lo, hi, AutoChunkSize(hi - lo + 1, count), rows);
        }
        i := i + 1;
      }
      assert targets[..i] == targets;
    }

    method CutLinks(j: nat, targets: seq<Target>, count: nat, before: seq<Chunk>) returns (rows: seq<Chunk>)
      ensures rows == before + ChunksOf(j, targets, true, count)
    {
      rows := before;
      var i := 0;
      while i < |targets|
        invariant 0 <= i <= |targets|
        invariant rows == before + ChunksOf(j, targets[..i], true, count)
      {
        assert targets[..i + 1][..i] == targets[..i];
        if targets[i].Link? {
          rows := rows + [Chunk(j, targets[i].id, targets[i].id, targets[i].id, Some(targets[i].url),
                                ChunkStatus.Pending, None, None, 0)];
        }
        i := i + 1;
      }
      assert targets[..i] == targets;
    }

    /** Prepare a job that starts for the first time; refused when its rows violate the constraint. */
    method InitializeJobChunks(j: nat) returns (ok: bool)
      requires j in jobs && forall c: nat :: c in chunks ==> c < nextChunk
      modifies `jobs, `chunks, `nextChunk
      ensures Initialize(old(State()), j) == if ok then Some(State()) else None
      ensures !ok ==> State() == old(State())
    {
      var job := jobs[j];
      var targets := job.targets;
      if targets == [] {
        if job.cursor.None? {
          jobs := jobs[j := job.(cursor := Some(if job.lo.Some? then job.lo.value else 0))];
        }
        return true;
      }
      if HasOpenEnded(targets) {
        var t := FirstOpen(targets);
        jobs := jobs[j := job.(lo := Some(t.lo), hi := None, cursor := Some(t.lo))];
        return true;
      }
      var count := OnlineWorkerCount();
      var rows := CutSpans(j, targets, count);
      rows := CutLinks(j, targets, count, rows);
      ok := Flush(rows);
      if ok {
        jobs := jobs[j := job.(cursor := None)];
      }
    }

    // ---- Leases ------------------------------------------------------------------------------------

    /** Return chunks whose lease expired to the queue; how many there were. */
    method ReclaimExpired() returns (count: nat)
      modifies `chunks
      ensures State() == SchedulerSpec.ReclaimExpired(old(State()))
      ensures count == |set c | c in old(chunks) && Expired(old(chunks)[c], now)|
    {
      count := |set c | c in chunks && Expired(chunks[c], now)|;
      chunks := map c | c in chunks ::
        if chunks[c].status.Leased? && chunks[c].expires.Some? && chunks[c].expires.value < now
        then chunks[c].(status := ChunkStatus.Pending, holder := None, expires := None, attempt := chunks[c].attempt + 1)
        else chunks[c];
    }

    /** Flip servers that stopped sending heartbeats to offline. */
    method MarkStaleWorkers(offlineAfter: int) returns (count: nat)
      modifies `workers
      ensures State() == SchedulerSpec.MarkStaleWorkers(old(State()), offlineAfter)
      ensures count == |set w | w in old(workers) && workers[w] != old(workers)[w]|
    {
      var cutoff := now - offlineAfter;
      var stale := set w | w in workers && workers[w].state.Online?
                           && (workers[w].beat.None? || workers[w].beat.value < cutoff);
      count := |stale|;
      workers := map w | w in workers :: if w in stale then workers[w].(state := WorkerState.Offline) else workers[w];
      assert stale == set w | w in old(workers) && workers[w] != old(workers)[w];
    }

    method TakePendingChunk(w: nat) returns (c: Option<nat>)
      ensures c == if Takeable(State(), w) == {} then None else Some(Least(Takeable(State(), w)))
    {
      var found := set c | c in chunks && chunks[c].status.Pending? && chunks[c].job in jobs
                           && jobs[chunks[c].job].state.Running? && Eligible(jobs[chunks[c].job], w);
      assert found == Takeable(State(), w);
      c := if found == {} then None else Some(Least(found));
    }

    /** Cut a fresh chunk from a running job that has range left; not `ok` when the row is refused. */
    method GenerateChunk(w: nat) returns (c: Option<nat>, ok: bool)
      modifies this
      ensures (c.Some? || !ok) <==> Cuttable(old(State()), w) != {}
      ensures c.None? ==> State() == old(State())
      ensures Cuttable(old(State()), w) != {} ==>
                var before, j := old(State()), Least(Cuttable(old(State()), w));
                if ok then c == Some(before.nextChunk) && !Clash(before.chunks, [NextPiece(j, before.jobs[j])])
                           && State() == CutPiece(before, j)
                else c.None? && Clash(before.chunks, [NextPiece(j, before.jobs[j])])
    {
      hide Clash, CutPiece, Cuttable, NextPiece;
      var found := set j | j in jobs && jobs[j].state.Running? && Eligible(jobs[j], w) && jobs[j].cursor.Some?
                           && (jobs[j].hi.None? || jobs[j].cursor.value <= jobs[j].hi.value);
      CuttableIs(State(), w, found);
      if found == {} { return None, true; }
      var next := nextChunk;
      ok := InsertPiece(Least(found));
      c := if ok then Some(next) else None;
    }

    /** Insert the next piece of a job's range and move its cursor on, unless the row is refused. */
    method InsertPiece(j: nat) returns (ok: bool)
      requires j in jobs && HasUncut(jobs[j])
      modifies `chunks, `jobs, `log, `nextChunk
      ensures ok <==> !Clash(old(chunks), [NextPiece(j, old(jobs)[j])])
      ensures State() == if ok then CutPiece(old(State()), j) else old(State())
    {
      hide Clash, CutPiece;
      ghost var before := State();
      var start := jobs[j].cursor.value;
      var last := start + jobs[j].size - 1;
      if jobs[j].hi.Some? && jobs[j].hi.value < last { last := jobs[j].hi.value; }
      var row := Chunk(j, start, last, start, None, ChunkStatus.Pending, None, None, 0);
      ClashOne(chunks, row);
      if Occupied(chunks, row) { return false; }
      chunks := chunks[nextChunk := row];
      jobs := jobs[j := jobs[j].(cursor := Some(last + 1))];
      log := log + [Cut(nextChunk, j, start, last)];
      nextChunk := nextChunk + 1;
      CutPieceIs(before, j, State());
      return true;
    }

    /** Lease the next available chunk to the server, cutting one if needed. */
    method LeaseChunk(w: nat, seconds: int) returns (reply: LeaseReply)
      requires w in workers
      modifies this
      ensures (State(), reply) == Lease(old(State()), w, seconds)
    {
      if workers[w].state.Draining? { return NoWork; }
      var saved := chunks;
      var _ := ReclaimExpired();
      if workers[w].free.Some? && workers[w].free.value < MIN_FREE_SPACE_GB { return NoWork; }
      var c := TakePendingChunk(w);
      if c.None? {
        var ok;
        c, ok := GenerateChunk(w);
        if !ok {
          chunks := saved;
          return Conflict;
        }
      }
      if c.None? { return NoWork; }
      var row := chunks[c.value];
      chunks := chunks[c.value := row.(status := ChunkStatus.Leased, holder := Some(w), expires := Some(now + seconds))];
      log := log + [Granted(c.value, row.job, w)];
      reply := Given(c.value);
    }

    /** Renew only the chunk the server is actively processing. */
    method RenewWorkerLeases(w: nat, seconds: int, active: Option<nat>)
      requires w in workers
      modifies `chunks, `workers
      ensures State() == RenewLeases(old(State()), w, seconds, active)
    {
      if active.Some? {
        var c := active.value;
        if c in chunks && chunks[c].holder == Some(w) && chunks[c].status.Leased? {
          chunks := chunks[c := chunks[c].(expires := Some(now + seconds))];
        }
      }
      workers := workers[w := workers[w].(beat := Some(now))];
    }

    // ---- Progress ----------------------------------------------------------------------------------

    method UpsertItem(k: Key, w: nat, status: ItemStatus, error: Option<string>)
      modifies `items, `nextItem
      ensures Library() == Upsert(old(Library()), k, w, status, error)
    {
      if k !in items {
        items := items[k := Item(nextItem, ItemStatus.Pending, None, None, 0)];
        nextItem := nextItem + 1;
      }
      items := items[k := items[k].(status := status, worker := Some(w), error := error, attempts := items[k].attempts + 1)];
    }

    /** Record where a finished file lives. */
    method RecordDownload(k: Key, who: Reporter, r: Result)
      requires r.path.Some? && k == who.KeyOf(r)
      modifies `downloads, `nextDownload, `files
      ensures Library() == PutFile(PutDownload(old(Library()), k, who, r), k, who, r)
    {
      ghost var t := Library();
      var found := set d | d in downloads && downloads[d].item == k;
      assert found == DownloadsOf(t, k);
      var d := nextDownload;
      if found == {} {
        downloads := downloads[d := Download(k, None, 0)];
        nextDownload := nextDownload + 1;
      } else {
        d := Least(found);
      }
      downloads := downloads[d := downloads[d].(worker := Some(who.worker), bytes := if r.size.Some? then r.size.value else 0)];
      assert Library() == PutDownload(t, k, who, r);
      DownloadStays(t, k, who, r);
      if FileKey(d, r.path.value) !in files {
        files := files[FileKey(d, r.path.value) := FileRow(r.checksum, r.size, who.host)];
      }
    }

    method RecordResult(who: Reporter, r: Result)
      modifies `items, `nextItem, `metas, `downloads, `nextDownload, `files, `groups
      ensures Library() == Record(old(Library()), who, r)
    {
      var k := who.KeyOf(r);
      UpsertItem(k, who.worker, r.status, r.error);
      if (r.status.Found? || r.status.Completed?) && (Truthy(r.title) || Truthy(r.link)) {
        metas := metas[k := Meta(r.title, r.link, r.mime, r.size, r.seconds)];
      }
      if r.status.Completed? && Truthy(r.path) {
        RecordDownload(k, who, r);
        if who.group.Some? {
          groups := groups + {GroupLink(k, who.group.value)};
        }
      }
    }

    /** Move the checkpoint forward only; progress renews the lease while the job runs. */
    method MoveCheckpoint(c: nat, next: int, running: bool)
      requires c in chunks
      modifies `chunks
      ensures c in chunks && chunks == old(chunks)[c := chunks[c]]
      ensures chunks[c] == old(chunks[c]).(next := Max(old(chunks[c]).next, next),
                                           expires := if running then Some(now + DEFAULT_LEASE_SECONDS) else old(chunks[c]).expires)
    {
      if next > chunks[c].next {
        chunks := chunks[c := chunks[c].(next := next)];
      }
      if running {
        chunks := chunks[c := chunks[c].(expires := Some(now + DEFAULT_LEASE_SECONDS))];
      }
    }

    method ReleaseChunk(c: nat)
      requires c in chunks
      modifies `chunks
      ensures chunks == old(chunks)[c := old(chunks[c]).Released()]
    {
      chunks := chunks[c := chunks[c].(status := ChunkStatus.Pending, holder := None, expires := None)];
    }

    /** Store an accepted batch; the chunk goes back to the queue when its job does not run. */
    method StoreBatch(w: nat, c: nat, next: int, results: seq<Result>) returns (running: bool)
      requires w in workers && c in chunks
      modifies `chunks, `workers, `items, `nextItem, `metas, `downloads, `nextDownload, `files, `groups
      ensures running <==> JobRunning(old(State()), old(chunks[c].job))
      ensures chunks == old(chunks)[c := Advanced(old(State()), old(chunks[c]), next)]
      ensures workers == old(workers)[w := old(workers[w]).(beat := Some(now))]
      ensures Library() == RecordAll(old(Library()), ReporterOf(old(State()), w, old(chunks[c].job)), results)
    {
      hide RecordAll, Advanced;
      ghost var before := State();
      var j := chunks[c].job;
      running := j in jobs && jobs[j].state.Running?;
      var who := Reporter(j, if j in jobs then jobs[j].group else None, w, workers[w].name);
      MoveCheckpoint(c, next, running);
      workers := workers[w := workers[w].(beat := Some(now))];
      RecordBatch(who, results);
      if !running { ReleaseChunk(c); }
      AdvancedIs(before, before.chunks[c], next);
    }

    /** Advance a chunk's checkpoint and record the results of a batch, if the server holds the chunk. */
    method ApplyProgress(w: nat, c: nat, next: int, results: seq<Result>) returns (reply: ProgressReply)
      requires w in workers
      modifies this
      ensures (State(), reply) == Progress(old(State()), w, c, next, results)
    {
      hide RecordAll, Advanced, Progress;
      ProgressRefused(State(), w, c, next, results);
      if c !in chunks { return Missing; }
      if !chunks[c].status.Leased? || chunks[c].holder != Some(w) { return Stale; }
      ghost var before := State();
      var running := StoreBatch(w, c, next, results);
      log := log + [Accepted(c, before.chunks[c].job, w, Ids(results), next)];
      ProgressIs(before, w, c, next, results, State());
      reply := Stored(running);
    }

    method RecordBatch(who: Reporter, results: seq<Result>)
      modifies `items, `nextItem, `metas, `downloads, `nextDownload, `files, `groups
      ensures Library() == RecordAll(old(Library()), who, results)
    {
      var i := 0;
      while i < |results|
        invariant 0 <= i <= |results|
        invariant Library() == RecordAll(old(Library()), who, results[..i])
      {
        assert results[..i + 1][..i] == results[..i];
        RecordResult(who, results[i]);
        i := i + 1;
      }
      assert results[..i] == results;
    }

    // ---- Completing chunks and jobs ----------------------------------------------------------------

    method CompleteChunk(w: nat, c: nat, status: ChunkStatus) returns (reply: CompleteReply)
      modifies `chunks
      ensures (State(), reply) == SchedulerSpec.CompleteChunk(old(State()), w, c, status)
    {
      if c !in chunks { return NoChunk; }
      if status.Completed? && chunks[c].status.Completed? { return Done; }
      if !chunks[c].status.Leased? || chunks[c].holder != Some(w) { return Fenced; }
      if status.Completed? {
        chunks := chunks[c := chunks[c].(status := ChunkStatus.Completed, holder := None, expires := None)];
      } else {
        chunks := chunks[c := chunks[c].(status := ChunkStatus.Pending, holder := None, expires := None,
                                         attempt := chunks[c].attempt + 1)];
      }
      reply := Done;
    }

    /** Complete a job once no work remains. */
    method MaybeCompleteJob(j: nat) returns (done: bool)
      modifies `jobs
      ensures State() == SchedulerSpec.MaybeCompleteJob(old(State()), j)
      ensures done <==> Finishable(old(State()), j)
    {
      if j !in jobs || !jobs[j].state.Running? { return false; }
      if jobs[j].cursor.Some? {
        if jobs[j].hi.None? { return false; }
        if jobs[j].cursor.value <= jobs[j].hi.value { return false; }
      } else {
        if !(exists c: nat :: c in chunks && chunks[c].job == j) { return false; }
      }
      if exists c: nat :: c in chunks && chunks[c].job == j && (chunks[c].status.Pending? || chunks[c].status.Leased?) {
        assert HasOpenChunk(State(), j);
        return false;
      }
      assert !HasOpenChunk(State(), j);
      jobs := jobs[j := jobs[j].(state := JobState.Completed)];
      done := true;
    }

    // ---- Retrying failed identifiers ---------------------------------------------------------------

    /** Evaluate ORDER BY over distinct ranks. */
    method OrderRows(rows: set<Key>, rank: map<Key, int>) returns (ks: seq<Key>)
      requires forall k :: k in rows ==> k in rank
      requires forall k, q :: k in rows && q in rows && rank[k] == rank[q] ==> k == q
      ensures forall k :: k in ks <==> k in rows
      ensures Increasing(ks, rank)
    {
      ks := [];
      var rest := rows;
      while rest != {}
        invariant rest <= rows
        invariant forall k :: k in ks <==> k in rows && k !in rest
        invariant forall k, q :: k in ks && q in rest ==> rank[k] < rank[q]
        invariant Increasing(ks, rank)
        decreases |rest|
      {
        var least :| least in rest;
        var todo := rest - {least};
        while todo != {}
          invariant todo <= rest && least in rest && least !in todo
          invariant forall q :: q in rest && q !in todo ==> rank[least] <= rank[q]
          decreases |todo|
        {
          var k :| k in todo;
          todo := todo - {k};
          if rank[k] < rank[least] { least := k; }
        }
        ks := ks + [least];
        rest := rest - {least};
      }
    }

    /** Give one failed identifier its own pending chunk: the one it has, rewound, or a new one. */
    method RequeueItem(k: Key, found: Option<nat>)
      requires k in items
      requires SingleChunks(State(), k.job, k.id) == if found.Some? then {found.value} else {}
      modifies `chunks, `nextChunk, `items, `log
      ensures State() == RequeueOne(old(State()), k)
      ensures found.Some? ==> found.value in old(chunks) && chunks == old(chunks)[found.value := Rewound(old(chunks)[found.value], k.id)]
      ensures nextChunk == if found.None? then old(nextChunk) + 1 else old(nextChunk)
      ensures found.None? ==> chunks == old(chunks)[old(nextChunk) := NewChunk(k.job, Interval(k.id, k.id), None)]
      ensures items.Keys == old(items).Keys
    {
      ghost var c := nextChunk;
      match found {
        case None =>
          chunks := chunks[nextChunk := Chunk(k.job, k.id, k.id, k.id, None, ChunkStatus.Pending, None, None, 0)];
          nextChunk := nextChunk + 1;
        case Some(f) =>
          assert f in SingleChunks(State(), k.job, k.id);
          chunks := chunks[f := chunks[f].(status := ChunkStatus.Pending, holder := None, expires := None, next := k.id,
                                           attempt := chunks[f].attempt + 1)];
          c := f;
      }
      items := items[k := items[k].(status := ItemStatus.Pending)];
      log := log + [Event.Requeued(c, k.job)];
    }

    /** The failed identifiers of a job, ORDER BY external id LIMIT RETRY_LIMIT. */
    method FailedItems(j: nat) returns (rows: seq<Key>)
      ensures rows == RetryList(State(), j)
    {
      var failed := set k | k in items && k.job == j && Retryable(items[k].status);
      assert failed == RetryKeys(State(), j);
      var all := OrderRows(failed, map k | k in failed :: k.id);
      rows := all[..Min(RETRY_LIMIT, |all|)];
      RetryListIs(State(), j, all);
    }

    /** Single-identifier chunks that already exist. */
    method SingleIdChunks(j: nat) returns (existing: map<Key, nat>)
      requires UniqueRanges(chunks)
      ensures Indexed(chunks, j, existing, [])
    {
      existing := map c | c in chunks && chunks[c].job == j && chunks[c].lo == chunks[c].hi :: Key(j, chunks[c].lo) := c;
    }

    /** Re-queue the next identifier, and keep the index of single-identifier chunks good for the others. */
    method RequeueIndexed(j: nat, k: Key, existing: map<Key, nat>, ghost done: seq<Key>)
      requires Indexed(chunks, j, existing, done) && Below(chunks, nextChunk) && k in items && k.job == j && k !in done
      modifies `chunks, `nextChunk, `items, `log
      ensures State() == RequeueOne(old(State()), k) && items.Keys == old(items).Keys
      ensures Indexed(chunks, j, existing, done + [k]) && Below(chunks, nextChunk)
    {
      hide RequeueOne, Indexed, Below;
      ghost var table, first, c := chunks, nextChunk, if k in existing then existing[k] else nextChunk;
      IndexFinds(State(), j, existing, done, k);
      NextUnused(table, first);
      assert k in existing ==> existing[k] in SingleChunks(State(), j, k.id);
      RequeueItem(k, if k in existing then Some(existing[k]) else None);
      BelowKept(table, first, chunks, nextChunk, c);
      IndexKept(table, chunks, j, existing, done, k, c);
    }

    method RequeueItems(j: nat, rows: seq<Key>, existing: map<Key, nat>)
      requires Indexed(chunks, j, existing, []) && Below(chunks, nextChunk)
      requires forall i :: 0 <= i < |rows| ==> rows[i] in items && rows[i].job == j
      requires forall i, k :: 0 <= i < k < |rows| ==> rows[i] != rows[k]
      modifies `chunks, `nextChunk, `items, `log
      ensures State() == RequeueAll(old(State()), rows)
    {
      hide RequeueOne, RequeueAll, Indexed, Below;
      ghost var before := State();
      RequeueAllEmpty(before);
      var i := 0;
      while i < |rows|
        invariant 0 <= i <= |rows|
        invariant State() == RequeueAll(before, rows[..i])
        invariant items.Keys == before.tables.items.Keys
        invariant Indexed(chunks, j, existing, rows[..i])
        invariant Below(chunks, nextChunk)
      {
        RequeueAllStep(before, rows[..i], rows[i]);
        RequeueIndexed(j, rows[i], existing, rows[..i]);
        assert rows[..i + 1] == rows[..i] + [rows[i]];
        i := i + 1;
      }
      assert rows[..i] == rows;
    }

    /** Re-queue up to RETRY_LIMIT failed identifiers of a job; a finished job runs again. */
    method RequeueFailedItems(j: nat) returns (count: nat)
      requires Valid() && j in jobs
      modifies `chunks, `nextChunk, `items, `log, `jobs
      ensures State() == Retry(old(State()), j)
      ensures count == |RetryList(old(State()), j)|
    {
      hide RequeueAll, Linked, UniqueRanges, Coherent, Keyed, RetryList, Indexed;
      var rows := FailedItems(j);
      count := |rows|;
      if rows == [] { return; }
      ChunksBelow(State());
      var existing := SingleIdChunks(j);
      RequeueItems(j, rows, existing);
      if jobs[j].state.Completed? || jobs[j].state.Failed? {
        jobs := jobs[j := jobs[j].(state := JobState.Running)];
      }
    }

    // ---- Draining ----------------------------------------------------------------------------------

    /** Completed items on the server whose video has no completed copy elsewhere, ORDER BY primary key. */
    method UnmigratedItems(w: nat) returns (ks: seq<Key>)
      requires Keyed(Library())
      ensures ks == PendingKeys(State(), w)
      ensures ks == [] <==> Unmigrated(Library(), w) == {}
    {
      var rows := set k | k in items && items[k].worker == Some(w) && items[k].status.Completed?
                          && !(exists q :: q in items && q.id == k.id && items[q].status.Completed?
                                           && items[q].worker.Some? && items[q].worker != Some(w));
      assert rows == Unmigrated(Library(), w);
      ks := OrderRows(rows, map k | k in rows :: items[k].pk);
      PendingKeysAre(State(), w, ks);
      assert ks != [] ==> ks[0] in ks;
    }

    /** Delete one item with its metadata, downloads, files and group links. */
    method DeleteItem(k: Key)
      modifies `items, `metas, `downloads, `files, `groups
      ensures Library() == DropItems(old(Library()), {k})
    {
      hide DropItems;
      ghost var before := Library();
      files := map f | f in files && !(f.download in downloads && downloads[f.download].item == k) :: files[f];
      downloads := map d | d in downloads && downloads[d].item != k :: downloads[d];
      groups := set g | g in groups && g.item != k;
      metas := metas - {k};
      items := items - {k};
      DropOne(before, k, Library());
    }

    method DeleteAll(gone: set<Key>)
      modifies `items, `metas, `downloads, `files, `groups
      ensures Library() == DropItems(old(Library()), gone)
    {
      hide DropItems;
      ghost var before := Library();
      DropNothing(before);
      ghost var done := {};
      var todo := gone;
      while todo != {}
        invariant done + todo == gone
        invariant Library() == DropItems(before, done)
        decreases |todo|
      {
        var k :| k in todo;
        DropMore(before, done, k);
        DeleteItem(k);
        done, todo := done + {k}, todo - {k};
      }
      assert done == gone;
    }

    method ReleaseHeldBy(w: nat)
      modifies `chunks
      ensures State() == DrainSpec.ReleaseHeldBy(old(State()), w)
    {
      chunks := map c | c in chunks ::
        if chunks[c].holder == Some(w) && chunks[c].status.Leased?
        then chunks[c].(status := ChunkStatus.Pending, holder := None, expires := None)
        else chunks[c];
    }

    /** Delete the server's row; references to it are set to NULL. */
    method DeleteWorkerRow(w: nat)
      modifies `items, `downloads, `jobs, `workers
      ensures Library() == Detach(old(Library()), w)
      ensures jobs == map j | j in old(jobs) :: old(jobs)[j].(owner := Unset(old(jobs)[j].owner, w))
      ensures workers == old(workers) - {w}
    {
      hide Detach;
      UnsetWorker(w);
      jobs := map j | j in jobs :: if jobs[j].owner == Some(w) then jobs[j].(owner := None) else jobs[j];
      workers := workers - {w};
    }

    method UnsetWorker(w: nat)
      modifies `items, `downloads
      ensures Library() == Detach(old(Library()), w)
    {
      items := map k | k in items :: if items[k].worker == Some(w) then items[k].(worker := None) else items[k];
      downloads := map d | d in downloads ::
        if downloads[d].worker == Some(w) then downloads[d].(worker := None) else downloads[d];
      assert items == Detach(old(Library()), w).items;
      assert downloads == Detach(old(Library()), w).downloads;
    }

    /** Delete a server with everything it downloaded; how many videos it held. */
    method PurgeWorker(w: nat) returns (count: nat)
      modifies `chunks, `items, `metas, `downloads, `files, `groups, `jobs, `workers
      ensures State() == Purge(old(State()), w)
      ensures count == |CompletedKeys(old(Library()), w)|
    {
      hide DropItems, Detach, Purge;
      ghost var before := State();
      var completed := set k | k in items && items[k].worker == Some(w) && items[k].status.Completed?;
      assert completed == CompletedKeys(before.tables, w);
      count := |completed|;
      ReleaseHeldBy(w);
      DeleteAll(completed);
      DeleteWorkerRow(w);
      PurgeIs(before, w, State());
    }

    /** How to fetch each exclusive video again, one entry per distinct video. */
    method PlanTransfers(pending: seq<Key>) returns (videos: seq<Transfer>)
      ensures videos == Transfers(State(), pending)
    {
      videos := [];
      var i := 0;
      while i < |pending|
        invariant 0 <= i <= |pending|
        invariant videos == Transfers(State(), pending[..i])
      {
        assert pending[..i + 1][..i] == pending[..i];
        var k := pending[i];
        i := i + 1;
        if exists n :: 0 <= n < |videos| && videos[n].id == k.id { continue; }
        var source := if k.job in jobs then jobs[k.job].source else "kinescope";
        var url: Option<string> := None;
        if source == "youtube" {
          url := if k in metas then metas[k].link else None;
          if !Truthy(url) { continue; }
        }
        videos := videos + [Transfer(k.id, source, url)];
      }
      assert pending[..i] == pending;
    }

    /** Group the entries by source: the sources in order of appearance, and each one's entries. */
    method BySource(videos: seq<Transfer>) returns (names: seq<string>, entries: map<string, seq<Transfer>>)
      ensures names == Sources(videos)
      ensures forall s :: s in names ==> s in entries && SortedById(entries[s]) == EntriesOf(videos, s)
    {
      names, entries := [], map[];
      var i := 0;
      while i < |videos|
        invariant 0 <= i <= |videos|
        invariant names == Sources(videos[..i])
        invariant forall s :: s in names <==> s in entries
        invariant forall s :: s in entries ==> entries[s] == OfSource(videos[..i], s)
        invariant forall s :: s !in entries ==> OfSource(videos[..i], s) == []
      {
        assert videos[..i + 1][..i] == videos[..i];
        var s := videos[i].source;
        if s !in entries {
          names := names + [s];
          entries := entries[s := []];
        }
        entries := entries[s := entries[s] + [videos[i]]];
        i := i + 1;
      }
      assert videos[..i] == videos;
      forall s | s in names ensures SortedById(entries[s]) == EntriesOf(videos, s) {
        SortedEntries(videos, s);
      }
    }

    /** Create and start a job over the videos of one source. */
    method AddRunningJob(source: string, targets: seq<Target>) returns (ok: bool)
      requires Below(chunks, nextChunk)
      modifies `jobs, `nextJob, `chunks, `nextChunk
      ensures AddRunning(old(State()), NewJob(source, targets)) == if ok then Some(State()) else None
    {
      hide Initialize, Below;
      BelowMeans(chunks, nextChunk);
      ghost var before := State();
      var j := nextJob;
      jobs := jobs[j := NewJob(source, targets)];
      nextJob := nextJob + 1;
      assert State() == AddJob(before, NewJob(source, targets));
      ok := InitializeJobChunks(j);
      if ok {
        jobs := jobs[j := jobs[j].(state := JobState.Running)];
      }
    }

    /** Queue re-downloads of the videos that exist only on the server and mark it draining; how many. */
    method StartDrain(w: nat) returns (count: nat)
      requires Valid() && w in workers
      modifies `jobs, `nextJob, `chunks, `nextChunk, `workers
      ensures DrainSpec.StartDrain(old(State()), w) == Some(State())
      ensures count == |Plan(old(State()), w)|
    {
      hide Safe, Keyed, AddRunning, Plan, Transfers, PendingKeys, EntriesOf, Sources;
      ghost var before := State();
      var pending := UnmigratedItems(w);
      var videos := PlanTransfers(pending);
      PlanIs(before, w, pending);
      count := |videos|;
      var names, entries := BySource(videos);
      var i := 0;
      while i < |names|
        invariant 0 <= i <= |names|
        invariant TransferJobs(before, videos, names[..i]) == Some(State())
      {
        assert names[..i + 1][..i] == names[..i];
        TransferStarts(before, w, videos, names, i);
        var ok := AddRunningJob(names[i], TargetsOf(SortedById(entries[names[i]])));
        assert ok;
        i := i + 1;
      }
      assert names[..i] == names;
      workers := workers[w := workers[w].(state := WorkerState.Draining)];
      ReleaseHeldBy(w);
    }

    /** Remove a draining server unless it is held back or some video of it has no copy yet. */
    method FinalizeWorker(held: set<nat>, w: nat) returns (removed: bool)
      requires Valid()
      modifies `chunks, `items, `metas, `downloads, `files, `groups, `jobs, `workers
      ensures State() == FinalizeOne(old(State()), held, w) && Valid()
      ensures workers == if removed then old(workers) - {w} else old(workers)
    {
      hide Safe, Keyed, Purge, Unmigrated;
      if w in held { return false; }
      var left := UnmigratedItems(w);
      if left != [] { return false; }
      PurgeSafe(State(), w);
      PurgeKeyed(State(), w);
      PurgeTakes(State(), w);
      var _ := PurgeWorker(w);
      return true;
    }

    /** One pass over the draining servers, in the order the query returned them, and how many it removed. */
    method FinalizeDrainedWorkers(held: set<nat>, order: seq<nat>) returns (done: nat)
      requires Valid()
      modifies `chunks, `items, `metas, `downloads, `files, `groups, `jobs, `workers
      ensures State() == Finalize(old(State()), held, order) && Valid()
      ensures ListsDraining(old(State()), order) ==> done == |old(workers)| - |workers|
    {
      hide Valid, FinalizeOne, ListsDraining, Finalize;
      ghost var before := State();
      FinalizeNone(before, held);
      ghost var listed := Apart(order, before.workers);
      if ListsDraining(before, order) { ListedApart(before, order); }
      done := 0;
      var i := 0;
      while i < |order|
        invariant 0 <= i <= |order|
        invariant State() == Finalize(before, held, order[..i])
        invariant Valid()
        invariant listed ==> |workers| + done == |before.workers|
        invariant listed ==> Apart(order[i..], workers)
      {
        FinalizeStep(before, held, order, i);
        ghost var rows := workers;
        var removed := FinalizeWorker(held, order[i]);
        if listed { OneRemoved(rows, workers, order[i..], removed); }
        if removed { done := done + 1; }
        i := i + 1;
      }
      assert order[..i] == order;
    }

    // ---- Requests ----------------------------------------------------------------------------------

    /** Register a server, or refresh the one with that name; a draining one stays draining. */
    method RegisterWorker(name: string) returns (w: nat)
      modifies `workers, `nextWorker
      ensures State() == Requests.RegisterWorker(old(State()), name)
      ensures w in workers
    {
      var found := set v | v in workers && workers[v].name == name;
      assert found == Requests.WorkersNamed(State(), name);
      if found == {} {
        w := nextWorker;
        workers := workers[w := Worker(name, WorkerState.Offline, None, None)];
        nextWorker := nextWorker + 1;
      } else {
        w := Least(found);
      }
      if !workers[w].state.Draining? {
        workers := workers[w := workers[w].(state := WorkerState.Online)];
      }
      workers := workers[w := workers[w].(beat := Some(now))];
      assert found != {} ==> workers == old(workers)[w := workers[w]];
    }

    method Heartbeat(w: nat, active: Option<nat>, lease: int, sample: Option<Option<real>>)
      requires w in workers
      modifies `workers, `chunks
      ensures State() == BeatHeart(old(State()), w, active, lease, sample)
    {
      if !workers[w].state.Draining? {
        workers := workers[w := workers[w].(state := WorkerState.Online)];
      }
      RenewWorkerLeases(w, lease, active);
      if sample.Some? {
        workers := workers[w := workers[w].(free := sample.value)];
      }
      assert workers == BeatHeart(old(State()), w, active, lease, sample).workers;
    }

    /** Start, pause, resume or stop a job; refused when its state does not allow it. */
    method Transition(j: nat, command: Command) returns (ok: bool)
      requires j in jobs && forall c: nat :: c in chunks ==> c < nextChunk
      modifies `jobs, `chunks, `nextChunk
      ensures State() == Drive(old(State()), j, command)
      ensures ok ==> Allowed(command, old(jobs[j]).state) && jobs[j].state == NewState(command)
      ensures !ok ==> State() == old(State())
    {
      hide Initialize;
      var state := jobs[j].state;
      var allowed := match command
        case Start => [JobState.Created, JobState.Paused, JobState.Stopped]
        case Pause => [JobState.Running]
        case Resume => [JobState.Paused]
        case Stop => [JobState.Running, JobState.Paused, JobState.Pausing];
      assert state in allowed <==> Allowed(command, state);
      if state !in allowed { return false; }
      if command.Start? && state.Created? {
        ok := InitializeJobChunks(j);
        if !ok { return; }
      }
      jobs := jobs[j := jobs[j].(state := NewState(command))];
      ok := true;
    }

    /** Take the retryable items of one job, or all, off the retry list; how many there were. */
    method DismissAllErrors(of: Option<nat>) returns (count: nat)
      modifies `items
      ensures State() == DismissMany(old(State()), of)
      ensures count == |set k | k in old(items) && Retryable(old(items)[k].status) && (of.None? || of.value == k.job)|
    {
      var found := set k | k in items && Retryable(items[k].status) && (of.None? || of.value == k.job);
      count := |found|;
      var todo := found;
      while todo != {}
        invariant todo <= found && items.Keys == old(items).Keys
        invariant forall k :: k in items ==>
                    items[k] == if k in found && k !in todo then Dismissed(old(items)[k]) else old(items)[k]
        decreases |todo|
      {
        var k :| k in todo;
        items := items[k := items[k].(status := ItemStatus.Cancelled)];
        todo := todo - {k};
      }
      assert items == DismissMany(old(State()), of).tables.items;
    }

    /** Store a new job, unless its range or its agent is refused. */
    method CreateJob(job: Job) returns (ok: bool)
      modifies `jobs, `nextJob
      ensures ok <==> Acceptable(old(State()), job)
      ensures State() == if ok then AddJob(old(State()), job) else old(State())
    {
      if !job.state.Created? || job.cursor.Some? || job.size < 1 { return false; }
      if job.hi.Some? && (job.lo.None? || job.hi.value < job.lo.value) { return false; }
      if job.owner.Some? && job.owner.value !in workers { return false; }
      jobs := jobs[nextJob := job];
      nextJob := nextJob + 1;
      ok := true;
    }

    /** Delete a job with its chunks and items. */
    method RemoveJob(j: nat)
      requires j in jobs
      modifies `jobs, `chunks, `items, `metas, `downloads, `files, `groups
      ensures State() == WithoutJob(old(State()), j)
    {
      hide DropItems;
      jobs := jobs - {j};
      chunks := map c | c in chunks && chunks[c].job != j :: chunks[c];
      DeleteAll(set k | k in items && k.job == j);
    }

    /** Remove a server: at once with its files, or after its exclusive videos have moved. */
    method RemoveWorker(w: nat, redistribute: bool)
      requires Valid() && w in workers
      modifies this
      ensures State() == if redistribute then Redistribute(old(State()), w) else Purge(old(State()), w)
    {
      hide Safe, Keyed, Purge, DrainSpec.StartDrain, Unmigrated;
      if redistribute {
        if workers[w].state.Draining? { return; }
        if !(exists v :: v in workers && v != w && workers[v].state.Online?) { return; }
        StartDrainSafe(State(), w);
        var _ := StartDrain(w);
        var left := UnmigratedItems(w);
        if left == [] {
          var _ := PurgeWorker(w);
        }
      } else {
        var _ := PurgeWorker(w);
      }
    }

    /** What agents send about the chunks they work on. */
    method ServeWork(r: Request)
      requires Valid() && (r.TakeLease? || r.Report? || r.Complete? || r.Fail?)
      modifies this
      ensures State() == Apply(old(State()), r)
    {
      hide Valid, Lease, Progress, SchedulerSpec.MaybeCompleteJob;
      if r.worker !in workers { return; }
      match r
      case TakeLease(w, lease) =>
        var _ := LeaseChunk(w, lease);
      case Report(w, c, next, results) =>
        var _ := ApplyProgress(w, c, next, results);
      case Complete(w, c, status) =>
        var reply := CompleteChunk(w, c, status);
        if reply.Done? {
          var _ := MaybeCompleteJob(chunks[c].job);
        }
      case Fail(w, c) =>
        var _ := CompleteChunk(w, c, ChunkStatus.Failed);
    }

    /** What servers and the clock do otherwise. */
    method ServeWorker(r: Request)
      requires Valid() && (r.Tick? || r.Register? || r.Heartbeat? || r.MarkStale? || r.SweepDrained? || r.RemoveWorker?)
      modifies this
      ensures State() == Apply(old(State()), r)
    {
      hide Safe, Keyed, BeatHeart, Requests.RegisterWorker, Finalize, Redistribute, Purge, ListsDraining;
      match r
      case Tick(seconds) =>
        now := now + seconds;
      case Register(name) =>
        var _ := RegisterWorker(name);
      case Heartbeat(w, active, lease, sample) =>
        if w in workers { Heartbeat(w, active, lease, sample); }
      case MarkStale(offlineAfter) =>
        var _ := MarkStaleWorkers(offlineAfter);
      case SweepDrained(held, order) =>
        var listed := DrainingListed(order);
        if listed { var _ := FinalizeDrainedWorkers(held, order); }
      case RemoveWorker(w, redistribute) =>
        if w in workers { RemoveWorker(w, redistribute); }
    }

    /** Is this the answer to the query for draining servers? */
    method DrainingListed(order: seq<nat>) returns (listed: bool)
      ensures listed <==> ListsDraining(State(), order)
    {
      listed := && (forall i, k :: 0 <= i < k < |order| ==> order[i] != order[k])
                && (forall w :: w in workers && workers[w].state.Draining? ==> w in order)
                && (forall i :: 0 <= i < |order| ==> order[i] in workers && workers[order[i]].state.Draining?);
    }

    /** Take one failed item off the retry list. */
    method DismissError(k: Key)
      modifies `items
      ensures State() == Apply(old(State()), Dismiss(k))
    {
      if k in items && Retryable(items[k].status) {
        items := items[k := items[k].(status := ItemStatus.Cancelled)];
      }
    }

    /** What users do with jobs. */
    method ServeJob(r: Request)
      requires Valid() && (r.CreateJob? || r.Control? || r.DeleteJob? || r.SweepJob?)
      modifies this
      ensures State() == Apply(old(State()), r)
    {
      hide Keyed, Coherent, UniqueRanges, Linked, Drive, WithoutJob, AddJob, Acceptable, SchedulerSpec.MaybeCompleteJob;
      ChunksBelow(State());
      match r
      case CreateJob(job) =>
        var _ := CreateJob(job);
      case Control(j, command) =>
        if j in jobs { var _ := Transition(j, command); }
      case DeleteJob(j) =>
        if j in jobs { RemoveJob(j); }
      case SweepJob(j) =>
        var _ := MaybeCompleteJob(j);
    }

    /** What users do with items. */
    method ServeItems(r: Request)
      requires Valid() && (r.RetryJob? || r.Dismiss? || r.DismissAll? || r.DeleteItems?)
      modifies this
      ensures State() == Apply(old(State()), r)
    {
      hide Safe, Keyed, Retry, DropItems, DismissMany, Dismissed;
      match r
      case RetryJob(j) =>
        if j in jobs { var _ := RequeueFailedItems(j); }
      case Dismiss(k) =>
        DismissError(k);
      case DismissAll(of) =>
        var _ := DismissAllErrors(of);
      case DeleteItems(gone) =>
        DeleteAll(gone);
    }

    /** One request or sweeper action is one transaction: it takes the tables exactly where the
        specification says, and leaves them valid. */
    method Serve(r: Request)
      requires Valid()
      modifies this
      ensures State() == Apply(old(State()), r) && Valid()
    {
      hide Safe, Keyed, Apply;
      ApplySafe(State(), r);
      ApplyKeyed(State(), r);
      if r.TakeLease? || r.Report? || r.Complete? || r.Fail? {
        ServeWork(r);
      } else if r.Tick? || r.Register? || r.Heartbeat? || r.MarkStale? || r.SweepDrained? || r.RemoveWorker? {
        ServeWorker(r);
      } else if r.CreateJob? || r.Control? || r.DeleteJob? || r.SweepJob? {
        ServeJob(r);
      } else {
        ServeItems(r);
      }
    }
  }

  predicate Occupied(table: map<nat, Chunk>, row: Chunk) {
    exists c: nat :: c in table && SameRange(table[c], row)
  }

  /** Strictly increasing by rank. */
  ghost predicate Increasing(ks: seq<Key>, rank: map<Key, int>) {
    && (forall i :: 0 <= i < |ks| ==> ks[i] in rank)
    && (forall i, k :: 0 <= i < k < |ks| ==> rank[ks[i]] < rank[ks[k]])
  }

  lemma SameLast(a: seq<Key>, b: seq<Key>, rank: map<Key, int>)
    requires Increasing(a, rank) && Increasing(b, rank) && a != [] && b != []
    requires forall k :: k in a <==> k in b
    ensures a[|a| - 1] == b[|b| - 1]
  {
    var x, y := a[|a| - 1], b[|b| - 1];
    assert x in a && y in b;
    var i :| 0 <= i < |b| && b[i] == x;
    var k :| 0 <= k < |a| && a[k] == y;
  }

  /** There is only one increasing order of the same rows. */
  lemma OneOrder(a: seq<Key>, b: seq<Key>, rank: map<Key, int>)
    requires Increasing(a, rank) && Increasing(b, rank)
    requires forall k :: k in a <==> k in b
    ensures a == b
  {
    assert a != [] ==> a[0] in a;
    assert b != [] ==> b[0] in b;
    if a != [] && b != [] {
      var m, n := |a| - 1, |b| - 1;
      SameLast(a, b, rank);
      Shorter(a, rank);
      Shorter(b, rank);
      hide Increasing;
      forall k ensures k in a[..m] <==> k in b[..n] {
        LastOnce(a, rank, k);
        LastOnce(b, rank, k);
      }
      OneOrder(a[..m], b[..n], rank);
      assert a == a[..m] + [a[m]] && b == b[..n] + [b[n]];
    }
  }

  lemma Shorter(a: seq<Key>, rank: map<Key, int>)
    requires Increasing(a, rank) && a != []
    ensures Increasing(a[..|a| - 1], rank)
  {
  }

  lemma LastOnce(a: seq<Key>, rank: map<Key, int>, k: Key)
    requires Increasing(a, rank) && a != []
    ensures k in a[..|a| - 1] <==> k in a && k != a[|a| - 1]
  {
    assert a == a[..|a| - 1] + [a[|a| - 1]];
  }

  ghost function IdsOf(rows: set<Key>): map<Key, int> {
    map k | k in rows :: k.id
  }

  lemma RetrySorted(db: DB, j: nat)
    ensures forall k :: k in RetryOrder(db, j) <==> k in RetryKeys(db, j)
    ensures Increasing(RetryOrder(db, j), IdsOf(RetryKeys(db, j)))
  {
    var all := RetryOrder(db, j);
    assert forall i :: 0 <= i < |all| ==> all[i] in RetryKeys(db, j) && all[i] == Key(j, all[i].id);
  }

  lemma RetryListIs(db: DB, j: nat, ks: seq<Key>)
    requires forall k :: k in ks <==> k in RetryKeys(db, j)
    requires Increasing(ks, IdsOf(RetryKeys(db, j)))
    ensures RetryList(db, j) == ks[..Min(RETRY_LIMIT, |ks|)]
  {
    hide RetryOrder, RetryKeys, Increasing, IdsOf;
    RetrySorted(db, j);
    OneOrder(RetryOrder(db, j), ks, IdsOf(RetryKeys(db, j)));
  }

  /** The dictionary of single-identifier chunks is right for every identifier not re-queued yet. */
  ghost predicate Indexed(chunks: map<nat, Chunk>, j: nat, existing: map<Key, nat>, done: seq<Key>) {
    && (forall c :: c in chunks && chunks[c].job == j && chunks[c].lo == chunks[c].hi && Key(j, chunks[c].lo) !in done ==>
          Key(j, chunks[c].lo) in existing && existing[Key(j, chunks[c].lo)] == c)
    && (forall k :: k in existing ==>
          existing[k] in chunks && chunks[existing[k]].job == j == k.job
          && chunks[existing[k]].lo == chunks[existing[k]].hi == k.id)
  }

  lemma {:induction false} RequeueAllEmpty(db: DB)
    ensures RequeueAll(db, []) == db
  {
  }

  lemma {:induction false} RequeueAllStep(db: DB, ks: seq<Key>, k: Key)
    requires k in db.tables.items && forall i :: 0 <= i < |ks| ==> ks[i] in db.tables.items
    ensures RequeueAll(db, ks + [k]) == RequeueOne(RequeueAll(db, ks), k)
  {
    assert (ks + [k])[..|ks|] == ks;
  }

  ghost predicate Below(chunks: map<nat, Chunk>, first: nat) {
    forall c :: c in chunks ==> c < first
  }

  lemma NextUnused(chunks: map<nat, Chunk>, first: nat)
    requires Below(chunks, first)
    ensures first !in chunks
  {
  }

  lemma BelowKept(chunks: map<nat, Chunk>, first: nat, after: map<nat, Chunk>, next: nat, c: nat)
    requires Below(chunks, first) && c in after && after == chunks[c := after[c]]
    requires if c in chunks then next == first else c == first && next == first + 1
    ensures Below(after, next)
  {
  }

  lemma IndexKept(chunks: map<nat, Chunk>, after: map<nat, Chunk>, j: nat, existing: map<Key,
                  nat>, done: seq<Key>,
                  k: Key, c: nat)
    requires Indexed(chunks, j, existing, done) && k.job == j
    requires c in after && after == chunks[c := after[c]]
    requires after[c].job == j && after[c].lo == after[c].hi == k.id
    requires if k in existing then c == existing[k] else c !in chunks
    ensures Indexed(after, j, existing, done + [k])
  {
    forall d | d in after && after[d].job == j && after[d].lo == after[d].hi && Key(j, after[d].lo) !in done + [k]
      ensures Key(j, after[d].lo) in existing && existing[Key(j, after[d].lo)] == d
    {
      assert k in done + [k];
      assert d != c;
    }
  }

  lemma IndexFinds(db: DB, j: nat, existing: map<Key, nat>, done: seq<Key>, k: Key)
    requires Indexed(db.chunks, j, existing, done) && k.job == j && k !in done
    ensures SingleChunks(db, k.job, k.id) == if k in existing then {existing[k]} else {}
  {
    forall c | c in SingleChunks(db, k.job, k.id) ensures k in existing && existing[k] == c {
      assert Key(j, db.chunks[c].lo) == k;
    }
  }

  /** The primary keys of a set of item rows. */
  ghost function PksOf(t: Tables, rows: set<Key>): map<Key, int> {
    map k | k in rows && k in t.items :: t.items[k].pk
  }

  lemma PendingSorted(db: DB, w: nat)
    requires Keyed(db.tables)
    ensures forall k :: k in PendingKeys(db, w) <==> k in Unmigrated(db.tables, w)
    ensures Increasing(PendingKeys(db, w), PksOf(db.tables, Unmigrated(db.tables, w)))
  {
    var all := PendingKeys(db, w);
    assert forall i :: 0 <= i < |all| ==> all[i] in Unmigrated(db.tables, w);
  }

  lemma PendingKeysAre(db: DB, w: nat, ks: seq<Key>)
    requires Keyed(db.tables)
    requires forall k :: k in ks <==> k in Unmigrated(db.tables, w)
    requires Increasing(ks, PksOf(db.tables, Unmigrated(db.tables, w)))
    ensures ks == PendingKeys(db, w)
  {
    hide PendingKeys, Unmigrated, Increasing, PksOf, Keyed;
    PendingSorted(db, w);
    OneOrder(PendingKeys(db, w), ks, PksOf(db.tables, Unmigrated(db.tables, w)));
  }

  lemma DropNothing(t: Tables)
    ensures DropItems(t, {}) == t
  {
    assert DropItems(t, {}).items == t.items;
    assert DropItems(t, {}).metas == t.metas;
    assert DropItems(t, {}).downloads == t.downloads;
    assert DropItems(t, {}).files == t.files;
    assert DropItems(t, {}).groups == t.groups;
  }

  lemma DropOne(t: Tables, k: Key, u: Tables)
    requires u.nextItem == t.nextItem && u.nextDownload == t.nextDownload
    requires u.items == t.items - {k} && u.metas == t.metas - {k}
    requires forall d :: d in u.downloads <==> d in t.downloads && t.downloads[d].item != k
    requires forall d :: d in u.downloads ==> u.downloads[d] == t.downloads[d]
    requires forall f :: f in u.files <==>
               f in t.files && !(f.download in t.downloads && t.downloads[f.download].item == k)
    requires forall f :: f in u.files ==> u.files[f] == t.files[f]
    requires forall g :: g in u.groups <==> g in t.groups && g.item != k
    ensures u == DropItems(t, {k})
  {
    var v := DropItems(t, {k});
    assert u.items == v.items && u.metas == v.metas;
    assert u.downloads == v.downloads;
    assert u.files == v.files;
    assert u.groups == v.groups;
  }

  lemma DropMore(t: Tables, gone: set<Key>, k: Key)
    ensures DropItems(DropItems(t, gone), {k}) == DropItems(t, gone + {k})
  {
    var a, b := DropItems(DropItems(t, gone), {k}), DropItems(t, gone + {k});
    assert a.items == b.items;
    assert a.metas == b.metas;
    assert a.downloads == b.downloads;
    assert a.files == b.files;
    assert a.groups == b.groups;
  }

  lemma PurgeIs(db: DB, w: nat, after: DB)
    requires after.chunks == DrainSpec.ReleaseHeldBy(db, w).chunks
    requires after.tables == Detach(DropItems(db.tables, CompletedKeys(db.tables, w)), w)
    requires after.jobs == map j | j in db.jobs :: db.jobs[j].(owner := Unset(db.jobs[j].owner, w))
    requires after.workers == db.workers - {w}
    requires after.nextJob == db.nextJob && after.nextChunk == db.nextChunk && after.nextWorker == db.nextWorker
    requires after.now == db.now && after.log == db.log
    ensures after == Purge(db, w)
  {
  }

  lemma PurgeKeyed(db: DB, w: nat)
    requires Keyed(db.tables)
    ensures Keyed(Purge(db, w).tables)
  {
  }

  /** The entries of one source in the order they were found. */
  function OfSource(ts: seq<Transfer>, source: string): seq<Transfer> {
    if ts == [] then []
    else
      var before := OfSource(ts[..|ts| - 1], source);
      if ts[|ts| - 1].source == source then before + [ts[|ts| - 1]] else before
  }

  function SortedById(ts: seq<Transfer>): seq<Transfer> {
    if ts == [] then [] else InsertById(SortedById(ts[..|ts| - 1]), ts[|ts| - 1])
  }

  lemma {:induction false} SortedEntries(ts: seq<Transfer>, source: string)
    ensures SortedById(OfSource(ts, source)) == EntriesOf(ts, source)
  {
    if ts != [] {
      var n := |ts| - 1;
      var before := OfSource(ts[..n], source);
      SortedEntries(ts[..n], source);
      assert (before + [ts[n]])[..|before|] == before;
    }
  }

  lemma BelowMeans(chunks: map<nat, Chunk>, first: nat)
    requires Below(chunks, first)
    ensures forall c: nat :: c in chunks ==> c < first
  {
  }

  lemma {:induction false} PlanIs(db: DB, w: nat, pending: seq<Key>)
    requires pending == PendingKeys(db, w)
    ensures Transfers(db, pending) == Plan(db, w)
  {
  }

  /** The next transfer job can be created, and its rows inserted. */
  lemma {:induction false} TransferStarts(db: DB, w: nat, videos: seq<Transfer>, names: seq<string>, i: nat)
    requires Safe(db) && videos == Plan(db, w) && names == Sources(videos) && i < |names|
    requires TransferJobs(db, videos, names[..i]).Some?
    ensures TransferJobs(db, videos, names[..i + 1]).Some?
    ensures Below(TransferJobs(db, videos, names[..i]).value.chunks, TransferJobs(db, videos, names[..i]).value.nextChunk)
  {
    TransfersDistinct(db, PendingKeys(db, w));
    SourcesCover(videos);
    TransferJobsQueue(db, videos, names[..i + 1]);
    TransferJobsSafe(db, videos, names[..i]);
    ChunksBelow(TransferJobs(db, videos, names[..i]).value);
  }

  // ---- Primary keys stay distinct ----------------------------------------------------------------

  /** Rows may go, but keep their primary keys. */
  ghost predicate KeysKept(t: Tables, u: Tables) {
    && u.nextItem == t.nextItem
    && forall k :: k in u.items ==> k in t.items && u.items[k].pk == t.items[k].pk
  }

  lemma KeptKeyed(t: Tables, u: Tables)
    requires Keyed(t) && KeysKept(t, u)
    ensures Keyed(u)
  {
  }

  lemma {:induction false} RecordAllKeyed(t: Tables, who: Reporter, rs: seq<Result>)
    requires Keyed(t)
    ensures Keyed(RecordAll(t, who, rs))
  {
    if rs != [] {
      var n := |rs| - 1;
      RecordAllKeyed(t, who, rs[..n]);
      RecordShape(RecordAll(t, who, rs[..n]), who, rs[n]);
    }
  }

  lemma {:induction false} RequeueAllKeyed(db: DB, ks: seq<Key>)
    requires Keyed(db.tables) && forall i :: 0 <= i < |ks| ==> ks[i] in db.tables.items
    ensures Keyed(RequeueAll(db, ks).tables)
  {
    if ks != [] { RequeueAllKeyed(db, ks[..|ks| - 1]); }
  }

  lemma {:induction false} FinalizeKeyed(db: DB, held: set<nat>, order: seq<nat>)
    requires Keyed(db.tables)
    ensures Keyed(Finalize(db, held, order).tables)
  {
    hide Keyed, Purge;
    if order != [] {
      FinalizeKeyed(db, held, order[..|order| - 1]);
      PurgeKeyed(Finalize(db, held, order[..|order| - 1]), order[|order| - 1]);
    }
  }

  lemma RedistributeKeyed(db: DB, w: nat)
    requires Keyed(db.tables)
    ensures Keyed(Redistribute(db, w).tables)
  {
    hide Keyed, Purge, Redistribute;
    RedistributeCases(db, w);
    if w in db.workers && StartDrain(db, w).Some? { PurgeKeyed(StartDrain(db, w).value, w); }
  }

  lemma RestKeyed(db: DB, r: Request)
    requires Keyed(db.tables)
    requires r.Dismiss? || r.DismissAll? || r.DeleteJob? || r.DeleteItems?
    ensures Keyed(Apply(db, r).tables)
  {
    hide Keyed;
    KeptKeyed(db.tables, Apply(db, r).tables);
  }

  lemma PurgeTakes(db: DB, w: nat)
    ensures Purge(db, w).workers == db.workers - {w}
  {
  }

  /** The listed rows exist, each listed once. */
  ghost predicate Apart(order: seq<nat>, rows: map<nat, Worker>) {
    && (forall i, k :: 0 <= i < k < |order| ==> order[i] != order[k])
    && (forall i :: 0 <= i < |order| ==> order[i] in rows)
  }

  lemma ListedApart(db: DB, order: seq<nat>)
    requires ListsDraining(db, order)
    ensures Apart(order, db.workers)
  {
  }

  /** Removing the first listed row, or keeping it, leaves the others. */
  lemma OneRemoved(rows: map<nat, Worker>, after: map<nat, Worker>, order: seq<nat>, removed: bool)
    requires order != [] && Apart(order, rows) && after == if removed then rows - {order[0]} else rows
    ensures Apart(order[1..], after) && |after| == |rows| - if removed then 1 else 0
  {
    if removed {
      assert |rows| == |rows.Keys| && after.Keys == rows.Keys - {order[0]};
      assert |after.Keys| == |after|;
    }
  }

  lemma {:induction false} FinalizeNone(db: DB, held: set<nat>)
    ensures Finalize(db, held, []) == db
  {
  }

  lemma {:induction false} FinalizeStep(db: DB, held: set<nat>, order: seq<nat>, i: nat)
    requires i < |order|
    ensures Finalize(db, held, order[..i + 1]) == FinalizeOne(Finalize(db, held, order[..i]), held, order[i])
  {
    assert order[..i + 1][..i] == order[..i];
  }

  lemma TablesUntouched(db: DB, r: Request)
    requires r.Tick? || r.Register? || r.Heartbeat? || r.MarkStale? || r.TakeLease? || r.Complete? || r.Fail?
          || r.CreateJob? || r.Control? || r.SweepJob?
    ensures Apply(db, r).tables == db.tables
  {
  }

  /** Every request keeps the primary keys of items distinct. */
  lemma ApplyKeyed(db: DB, r: Request)
    requires Keyed(db.tables)
    ensures Keyed(Apply(db, r).tables)
  {
    hide Keyed, RecordAll, RequeueAll, Finalize, Redistribute, Purge, Lease, Drive, BeatHeart;
    if r.Report? {
      if r.worker in db.workers && r.chunk in db.chunks {
        RecordAllKeyed(db.tables, ReporterOf(db, r.worker, db.chunks[r.chunk].job), r.results);
      }
    } else if r.RetryJob? {
      if r.retried in db.jobs { RequeueAllKeyed(db, RetryList(db, r.retried)); }
    } else if r.SweepDrained? {
      FinalizeKeyed(db, r.held, r.order);
    } else if r.RemoveWorker? {
      RedistributeKeyed(db, r.worker);
      PurgeKeyed(db, r.worker);
    } else if r.Dismiss? || r.DismissAll? || r.DeleteJob? || r.DeleteItems? {
      RestKeyed(db, r);
    } else {
      TablesUntouched(db, r);
    }
  }

  lemma ClashOne(chunks: map<nat, Chunk>, row: Chunk)
    ensures Clash(chunks, [row]) <==> Occupied(chunks, row)
  {
    if Occupied(chunks, row) {
      var c: nat :| c in chunks && SameRange(chunks[c], row);
      assert SameRange(chunks[c], [row][0]);
    }
  }

  lemma CuttableIs(db: DB, w: nat, found: set<nat>)
    requires forall j :: j in found <==>
               j in db.jobs && db.jobs[j].state.Running? && Eligible(db.jobs[j], w) && HasUncut(db.jobs[j])
    ensures found == Cuttable(db, w)
  {
  }

  lemma CutPieceIs(db: DB, j: nat, after: DB)
    requires j in db.jobs && HasUncut(db.jobs[j])
    requires after.tables == db.tables && after.workers == db.workers && after.nextJob == db.nextJob
    requires after.nextWorker == db.nextWorker && after.now == db.now && after.nextChunk == db.nextChunk + 1
    requires after.chunks == db.chunks[db.nextChunk := NextPiece(j, db.jobs[j])]
    requires after.jobs == db.jobs[j := db.jobs[j].(cursor := Some(NextPiece(j, db.jobs[j]).hi + 1))]
    requires after.log == db.log + [Cut(db.nextChunk, j, NextPiece(j, db.jobs[j]).lo, NextPiece(j, db.jobs[j]).hi)]
    ensures after == CutPiece(db, j)
  {
  }

  lemma ProgressRefused(db: DB, w: nat, c: nat, next: int, rs: seq<Result>)
    requires w in db.workers
    ensures c !in db.chunks ==> Progress(db, w, c, next, rs) == (db, Missing)
    ensures c in db.chunks && !Holds(db, w, c) ==> Progress(db, w, c, next, rs) == (db, Stale)
  {
  }

  lemma {:induction false} ProgressIs(db: DB, w: nat, c: nat, next: int, rs: seq<Result>, after: DB)
    requires w in db.workers && Holds(db, w, c)
    requires after.jobs == db.jobs && after.nextJob == db.nextJob && after.nextChunk == db.nextChunk
    requires after.nextWorker == db.nextWorker && after.now == db.now
    requires after.chunks == db.chunks[c := Advanced(db, db.chunks[c], next)]
    requires after.workers == db.workers[w := db.workers[w].(beat := Some(db.now))]
    requires after.tables == RecordAll(db.tables, ReporterOf(db, w, db.chunks[c].job), rs)
    requires after.log == db.log + [Accepted(c, db.chunks[c].job, w, Ids(rs), next)]
    ensures Progress(db, w, c, next, rs) == (after, Stored(JobRunning(db, db.chunks[c].job)))
  {
  }

  lemma AdvancedIs(db: DB, ch: Chunk, next: int)
    ensures Advanced(db, ch, next) ==
              var moved := ch.(next := Max(ch.next, next));
              if JobRunning(db, ch.job) then moved.(expires := Some(db.now + DEFAULT_LEASE_SECONDS)) else moved.Released()
  {
  }

  /** The download row found, or added, is the one the file belongs to. */
  lemma DownloadStays(t: Tables, k: Key, who: Reporter, r: Result)
    requires k == who.KeyOf(r)
    ensures DownloadFor(PutDownload(t, k, who, r), k) == DownloadFor(t, k)
  {
    var u := PutDownload(t, k, who, r);
    var d := DownloadFor(t, k);
    assert d in DownloadsOf(u, k);
    if DownloadsOf(t, k) == {} {
      assert DownloadsOf(u, k) == {d};
    } else {
      assert DownloadsOf(u, k) == DownloadsOf(t, k);
    }
  }

  lemma {:induction false} ClashLast(chunks: map<nat, Chunk>, first: nat, rows: seq<Chunk>, row: Chunk)
    requires forall c: nat :: c in chunks ==> c < first
    requires !Clash(chunks, rows)
    ensures Clash(chunks, rows + [row]) <==> Occupied(Inserted(chunks, first, rows), row)
  {
    var table := Inserted(chunks, first, rows);
    var all := rows + [row];
    InsertedRows(chunks, first, rows);
    if Occupied(table, row) {
      var c: nat :| c in table && SameRange(table[c], row);
      if c in chunks {
        assert SameRange(chunks[c], all[|rows|]);
      } else {
        assert SameRange(all[c - first], all[|rows|]);
      }
    }
    if Clash(chunks, all) && !Occupied(table, row) {
      forall c, i | c in chunks && 0 <= i < |all| ensures !SameRange(chunks[c], all[i]) {
        if i == |rows| { assert table[c] == chunks[c]; } else { assert all[i] == rows[i]; }
      }
      forall i, k | 0 <= i < k < |all| ensures !SameRange(all[i], all[k]) {
        assert all[i] == rows[i];
        if k == |rows| {
          assert first + i in table && table[first + i] == rows[i];
        } else {
          assert all[k] == rows[k];
        }
      }
    }
  }

  lemma ClashGrows(chunks: map<nat, Chunk>, some: seq<Chunk>, rows: seq<Chunk>)
    requires some <= rows && Clash(chunks, some)
    ensures Clash(chunks, rows)
  {
    if c: nat, i :| c in chunks && 0 <= i < |some| && SameRange(chunks[c], some[i]) {
      assert SameRange(chunks[c], rows[i]);
    } else {
      var i, k :| 0 <= i < k < |some| && SameRange(some[i], some[k]);
      assert SameRange(rows[i], rows[k]);
    }
  }
}
