/** The tables stay whole: in every run no row points at one that is gone, primary keys and server names
    are unique; and what a deletion takes with it, row by row. */
module Integrity {
  import opened Rows
  import opened Catalogue
  import opened Database
  import opened SchedulerSpec
  import opened DrainSpec
  import opened Requests
  import opened LeaseSafety

  // ---- Whole tables ------------------------------------------------------------------------------

  ghost predicate OwnKeys(t: Tables) {
    && (forall k :: k in t.items ==> t.items[k].pk < t.nextItem)
    && (forall k, q :: k in t.items && q in t.items && t.items[k].pk == t.items[q].pk ==> k == q)
  }

  /** What hangs on an item hangs on one that exists; no two items share a primary key. */
  ghost predicate WholeTables(t: Tables) {
    && OwnKeys(t)
    && (forall k :: k in t.metas ==> k in t.items)
    && (forall d :: d in t.downloads ==> t.downloads[d].item in t.items)
    && (forall f :: f in t.files ==> f.download in t.downloads)
    && (forall g :: g in t.groups ==> g.item in t.items)
  }

  ghost predicate UniqueNames(db: DB) {
    forall v, w :: v in db.workers && w in db.workers && db.workers[v].name == db.workers[w].name ==> v == w
  }

  ghost predicate DownloadersExist(t: Tables, workers: map<nat, Worker>) {
    forall d :: d in t.downloads && t.downloads[d].worker.Some? ==> t.downloads[d].worker.value in workers
  }

  ghost predicate Whole(db: DB) {
    WholeTables(db.tables) && UniqueNames(db) && DownloadersExist(db.tables, db.workers)
  }

  // ---- Reports -----------------------------------------------------------------------------------

  lemma UpsertWhole(t: Tables, k: Key, w: nat, r: Result)
    requires WholeTables(t)
    ensures var u := PutMeta(Upsert(t, k, w, r.status, r.error), k, r); WholeTables(u) && k in u.items
  {
    hide PutMeta, WholeTables;
    UpsertRow(t, k, w, r);
    MetaWhole(Upsert(t, k, w, r.status, r.error), k, r);
  }

  lemma UpsertRow(t: Tables, k: Key, w: nat, r: Result)
    requires WholeTables(t)
    ensures var u := Upsert(t, k, w, r.status, r.error); WholeTables(u) && k in u.items
  {
    hide OwnKeys;
    UpsertKeys(t, k, w, r);
  }

  lemma UpsertKeys(t: Tables, k: Key, w: nat, r: Result)
    requires OwnKeys(t)
    ensures OwnKeys(Upsert(t, k, w, r.status, r.error))
  {
  }

  lemma MetaWhole(t: Tables, k: Key, r: Result)
    requires WholeTables(t) && k in t.items
    ensures WholeTables(PutMeta(t, k, r)) && k in PutMeta(t, k, r).items
  {
  }

  lemma DownloadWhole(t: Tables, k: Key, who: Reporter, r: Result)
    requires WholeTables(t) && k in t.items
    ensures var u := PutDownload(t, k, who, r); WholeTables(u) && DownloadFor(u, k) in u.downloads && k in u.items
  {
    var u := PutDownload(t, k, who, r);
    assert DownloadFor(t, k) in DownloadsOf(u, k);
  }

  lemma FileWhole(t: Tables, k: Key, who: Reporter, r: Result)
    requires WholeTables(t) && k in t.items && DownloadFor(t, k) in t.downloads && r.path.Some?
    ensures WholeTables(PutGroup(PutFile(t, k, who, r), k, who.group))
  {
  }

  lemma RecordWhole(t: Tables, who: Reporter, r: Result)
    requires WholeTables(t)
    ensures WholeTables(Record(t, who, r))
  {
    hide WholeTables, Upsert, PutMeta, PutDownload, DownloadFor, PutFile, PutGroup;
    var k := who.KeyOf(r);
    UpsertWhole(t, k, who.worker, r);
    if HasFile(r) {
      var a := PutMeta(Upsert(t, k, who.worker, r.status, r.error), k, r);
      DownloadWhole(a, k, who, r);
      FileWhole(PutDownload(a, k, who, r), k, who, r);
    }
  }

  lemma RecordDownloaders(t: Tables, who: Reporter, r: Result, workers: map<nat, Worker>)
    requires DownloadersExist(t, workers) && who.worker in workers
    ensures DownloadersExist(Record(t, who, r), workers)
  {
  }

  lemma {:induction false} RecordAllWhole(t: Tables, who: Reporter, rs: seq<Result>, workers: map<nat, Worker>)
    requires WholeTables(t) && DownloadersExist(t, workers) && who.worker in workers
    ensures WholeTables(RecordAll(t, who, rs)) && DownloadersExist(RecordAll(t, who, rs), workers)
  {
    hide WholeTables, DownloadersExist, Record;
    if rs != [] {
      var n := |rs| - 1;
      RecordAllWhole(t, who, rs[..n], workers);
      RecordWhole(RecordAll(t, who, rs[..n]), who, rs[n]);
      RecordDownloaders(RecordAll(t, who, rs[..n]), who, rs[n], workers);
    }
  }

  lemma ReportWhole(db: DB, w: nat, c: nat, next: int, rs: seq<Result>)
    requires Whole(db) && w in db.workers
    ensures Whole(Progress(db, w, c, next, rs).0)
  {
    hide WholeTables, DownloadersExist, Advanced;
    var after := Progress(db, w, c, next, rs).0;
    if Holds(db, w, c) {
      RecordAllWhole(db.tables, ReporterOf(db, w, db.chunks[c].job), rs, db.workers);
      MoreWorkers(after.tables, db.workers, after.workers);
    }
  }

  lemma MoreWorkers(t: Tables, workers: map<nat, Worker>, more: map<nat, Worker>)
    requires DownloadersExist(t, workers) && forall w :: w in workers ==> w in more
    ensures DownloadersExist(t, more)
  {
  }

  // ---- Deletions ---------------------------------------------------------------------------------

  /** The items `gone` are deleted with everything that hangs on them, and nothing else is. */
  ghost predicate Cascaded(t: Tables, u: Tables, gone: set<Key>) {
    && (forall k :: k in u.items <==> k in t.items && k !in gone)
    && (forall k :: k in u.metas <==> k in t.metas && k !in gone)
    && (forall k :: k in u.metas ==> u.metas[k] == t.metas[k])
    && (forall d :: d in u.downloads <==> d in t.downloads && t.downloads[d].item !in gone)
    && (forall f :: f in u.files <==> f in t.files && !(f.download in t.downloads && t.downloads[f.download].item in gone))
    && (forall f :: f in u.files ==> u.files[f] == t.files[f])
    && (forall g :: g in u.groups <==> g in t.groups && g.item !in gone)
    && u.nextItem == t.nextItem && u.nextDownload == t.nextDownload
  }

  /** The rows that stay are as they were. */
  ghost predicate SameRows(t: Tables, u: Tables) {
    && (forall k :: k in u.items && k in t.items ==> u.items[k] == t.items[k])
    && (forall d :: d in u.downloads && d in t.downloads ==> u.downloads[d] == t.downloads[d])
  }

  /** The rows that stay are as they were, except that none names the server `w` any more. */
  ghost predicate Forgotten(t: Tables, u: Tables, w: nat) {
    && (forall k :: k in u.items && k in t.items ==>
          u.items[k] == if t.items[k].worker == Some(w) then t.items[k].(worker := None) else t.items[k])
    && (forall d :: d in u.downloads && d in t.downloads ==>
          u.downloads[d] == if t.downloads[d].worker == Some(w) then t.downloads[d].(worker := None) else t.downloads[d])
  }

  lemma DropCascades(t: Tables, gone: set<Key>)
    ensures Cascaded(t, DropItems(t, gone), gone) && SameRows(t, DropItems(t, gone))
  {
  }

  /** Deleting items takes their metadata, downloads, files and group links along, and nothing else. */
  lemma DeletingItems(db: DB, gone: set<Key>)
    ensures var after := Apply(db, DeleteItems(gone));
            after == db.(tables := after.tables) && Cascaded(db.tables, after.tables, gone) && SameRows(db.tables, after.tables)
  {
    DropCascades(db.tables, gone);
  }

  /** Deleting a job takes its chunks and items along, and leaves every other job, chunk and item. */
  lemma DeletingAJob(db: DB, j: nat, gone: set<Key>)
    requires j in db.jobs && forall k :: k in gone <==> k in db.tables.items && k.job == j
    ensures var after := Apply(db, DeleteJob(j));
            && after == db.(jobs := after.jobs, chunks := after.chunks, tables := after.tables)
            && (forall i :: i in after.jobs <==> i in db.jobs && i != j)
            && (forall i :: i in after.jobs ==> after.jobs[i] == db.jobs[i])
            && (forall c :: c in after.chunks <==> c in db.chunks && db.chunks[c].job != j)
            && (forall c :: c in after.chunks ==> after.chunks[c] == db.chunks[c])
            && Cascaded(db.tables, after.tables, gone) && SameRows(db.tables, after.tables)
  {
    hide DropItems, Cascaded, SameRows;
    assert gone == set k | k in db.tables.items && k.job == j;
    DropCascades(db.tables, gone);
  }

  /** Deleting a server at once takes the videos it completed along. Its leases end and the jobs that
      were its own become everybody's; nothing names it any more, and all other rows stay. */
  lemma DeletingAServer(db: DB, w: nat, gone: set<Key>)
    requires Safe(db) && w in db.workers
    requires forall k :: k in gone <==>
               k in db.tables.items && db.tables.items[k].status.Completed? && db.tables.items[k].worker == Some(w)
    ensures var after := Apply(db, RemoveWorker(w, false));
            && after == db.(jobs := after.jobs, chunks := after.chunks, tables := after.tables, workers := after.workers)
            && (forall v :: v in after.workers <==> v in db.workers && v != w)
            && (forall v :: v in after.workers ==> after.workers[v] == db.workers[v])
            && (forall j :: j in after.jobs <==> j in db.jobs)
            && (forall j :: j in after.jobs ==>
                  after.jobs[j] == if db.jobs[j].owner == Some(w) then db.jobs[j].(owner := None) else db.jobs[j])
            && (forall c :: c in after.chunks <==> c in db.chunks)
            && (forall c :: c in after.chunks ==>
                  after.chunks[c] == if db.chunks[c].holder == Some(w)
                                     then db.chunks[c].(status := ChunkStatus.Pending, holder := None, expires := None)
                                     else db.chunks[c])
            && Cascaded(db.tables, after.tables, gone) && Forgotten(db.tables, after.tables, w)
  {
    hide DropItems, Detach, Cascaded, SameRows, Forgotten, Linked, UniqueRanges;
    assert gone == CompletedKeys(db.tables, w);
    DropCascades(db.tables, gone);
    var d := DropItems(db.tables, gone);
    DetachForgets(db.tables, d, gone, w);
    forall c | c in db.chunks && db.chunks[c].holder == Some(w) ensures db.chunks[c].status.Leased? {
      assert CoherentChunk(db, c);
    }
  }

  lemma DetachForgets(t: Tables, u: Tables, gone: set<Key>, w: nat)
    requires Cascaded(t, u, gone) && SameRows(t, u)
    ensures Cascaded(t, Detach(u, w), gone) && Forgotten(t, Detach(u, w), w)
  {
  }

  lemma CascadeWhole(t: Tables, u: Tables, gone: set<Key>)
    requires WholeTables(t) && Cascaded(t, u, gone)
    requires forall k :: k in u.items && k in t.items ==> u.items[k].pk == t.items[k].pk
    requires forall d :: d in u.downloads && d in t.downloads ==> u.downloads[d].item == t.downloads[d].item
    ensures WholeTables(u)
  {
  }

  lemma DropWhole(db: DB, gone: set<Key>)
    requires Whole(db)
    ensures WholeTables(DropItems(db.tables, gone)) && DownloadersExist(DropItems(db.tables, gone), db.workers)
  {
    hide WholeTables, DropItems;
    var u := DropItems(db.tables, gone);
    DropCascades(db.tables, gone);
    CascadeWhole(db.tables, u, gone);
  }

  lemma PurgeWhole(db: DB, w: nat)
    requires Whole(db)
    ensures Whole(Purge(db, w))
  {
    hide WholeTables, DropItems, CompletedKeys, ReleaseHeldBy, DownloadersExist, UniqueNames, Detach;
    var gone := CompletedKeys(db.tables, w);
    var u := DropItems(db.tables, gone);
    DropCascades(db.tables, gone);
    DetachForgets(db.tables, u, gone, w);
    CascadeWhole(db.tables, Detach(u, w), gone);
    DropWhole(db, gone);
    ForgottenDownloaders(u, db.workers, w);
    FewerNames(db, Purge(db, w));
  }

  lemma ForgottenDownloaders(t: Tables, workers: map<nat, Worker>, w: nat)
    requires DownloadersExist(t, workers)
    ensures DownloadersExist(Detach(t, w), workers - {w})
  {
  }

  lemma FewerNames(db: DB, after: DB)
    requires UniqueNames(db)
    requires forall v :: v in after.workers ==> v in db.workers && after.workers[v].name == db.workers[v].name
    ensures UniqueNames(after)
  {
  }

  // ---- Every other request -----------------------------------------------------------------------

  /** Items change at most their status, servers at most their state: no row comes or goes. */
  ghost predicate SameKeys(db: DB, after: DB) {
    && after.tables == db.tables.(items := after.tables.items)
    && (forall k :: k in after.tables.items <==> k in db.tables.items)
    && (forall k :: k in db.tables.items ==> after.tables.items[k].pk == db.tables.items[k].pk)
    && (forall w :: w in after.workers <==> w in db.workers)
    && (forall w :: w in db.workers ==> after.workers[w].name == db.workers[w].name)
  }

  lemma SameKeysWhole(db: DB, after: DB)
    requires Whole(db) && SameKeys(db, after)
    ensures Whole(after)
  {
  }

  lemma {:induction false} RequeueAllKeys(db: DB, ks: seq<Key>)
    requires forall i :: 0 <= i < |ks| ==> ks[i] in db.tables.items
    ensures SameKeys(db, RequeueAll(db, ks))
  {
    if ks != [] {
      var n := |ks| - 1;
      RequeueAllKeys(db, ks[..n]);
      RequeueKeys(RequeueAll(db, ks[..n]), ks[n]);
    }
  }

  lemma RequeueKeys(db: DB, k: Key)
    requires k in db.tables.items
    ensures SameKeys(db, RequeueOne(db, k))
  {
  }

  lemma RetryKeysStay(db: DB, j: nat)
    requires j in db.jobs
    ensures SameKeys(db, Retry(db, j))
  {
    hide RequeueAll, RetryList;
    RequeueAllKeys(db, RetryList(db, j));
  }

  lemma {:induction false} FinalizeWhole(db: DB, held: set<nat>, order: seq<nat>)
    requires Whole(db)
    ensures Whole(Finalize(db, held, order))
  {
    hide Whole, Purge, Unmigrated;
    if order != [] {
      var n := |order| - 1;
      FinalizeWhole(db, held, order[..n]);
      PurgeWhole(Finalize(db, held, order[..n]), order[n]);
    }
  }

  lemma RedistributeWhole(db: DB, w: nat)
    requires Whole(db)
    ensures Whole(Redistribute(db, w))
  {
    hide Whole, Purge, Redistribute, StartDrain;
    RedistributeCases(db, w);
    if w in db.workers && StartDrain(db, w).Some? {
      SameKeysWhole(db, StartDrain(db, w).value);
      PurgeWhole(StartDrain(db, w).value, w);
    }
  }

  lemma RegisterWhole(db: DB, name: string)
    requires Linked(db) && Whole(db)
    ensures Whole(RegisterWorker(db, name))
  {
    hide WholeTables;
    var after := RegisterWorker(db, name);
    if WorkersNamed(db, name) == {} {
      forall w | w in db.workers ensures db.workers[w].name != name { assert w !in WorkersNamed(db, name); }
    }
    MoreWorkers(db.tables, db.workers, after.workers);
  }

  lemma SweepKeys(db: DB, offlineAfter: int)
    ensures SameKeys(db, MarkStaleWorkers(db, offlineAfter))
  {
  }

  lemma DriveKeys(db: DB, j: nat, command: Command)
    requires j in db.jobs
    ensures SameKeys(db, Drive(db, j, command))
  {
    hide Initialize;
  }

  lemma QuietKeys(db: DB, r: Request)
    requires r.Tick? || r.Complete? || r.Fail? || r.CreateJob? || r.SweepJob? || r.Dismiss? || r.DismissAll?
    ensures SameKeys(db, Apply(db, r))
  {
    hide MaybeCompleteJob, CompleteChunk, SameKeys;
    KeysStay(db);
    if r.Complete? {
      var d := CompleteChunk(db, r.worker, r.chunk, r.status).0;
      CompleteKeys(db, r.worker, r.chunk, r.status);
      if r.chunk in d.chunks { FinishKeys(db, d, d.chunks[r.chunk].job); }
    } else if r.Fail? {
      CompleteKeys(db, r.worker, r.chunk, ChunkStatus.Failed);
    } else if r.SweepJob? {
      FinishKeys(db, db, r.swept);
    } else {
      RowsKeys(db, r);
    }
  }

  lemma CompleteKeys(db: DB, w: nat, c: nat, status: ChunkStatus)
    ensures SameKeys(db, CompleteChunk(db, w, c, status).0)
    ensures CompleteChunk(db, w, c, status).1.Done? ==> c in CompleteChunk(db, w, c, status).0.chunks
  {
  }

  lemma FinishKeys(db: DB, d: DB, j: nat)
    requires SameKeys(db, d)
    ensures SameKeys(db, MaybeCompleteJob(d, j))
  {
    hide Finishable;
  }

  lemma RowsKeys(db: DB, r: Request)
    requires r.Tick? || r.CreateJob? || r.Dismiss? || r.DismissAll?
    ensures SameKeys(db, Apply(db, r))
  {
    hide Acceptable;
  }

  lemma BeatKeys(db: DB, w: nat, active: Option<nat>, lease: int, sample: Option<Option<real>>)
    requires w in db.workers
    ensures SameKeys(db, BeatHeart(db, w, active, lease, sample))
  {
  }

  lemma DeleteWhole(db: DB, r: Request)
    requires Whole(db) && (r.DeleteJob? || r.DeleteItems?)
    ensures Whole(Apply(db, r))
  {
    hide Whole, DropItems, WholeTables, DownloadersExist;
    if r.DeleteItems? {
      DropWhole(db, r.items);
      TablesWhole(db, Apply(db, r));
    } else if r.deleted in db.jobs {
      DropWhole(db, set k | k in db.tables.items && k.job == r.deleted);
      TablesWhole(db, Apply(db, r));
    }
  }

  lemma TablesWhole(db: DB, after: DB)
    requires Whole(db) && WholeTables(after.tables) && DownloadersExist(after.tables, after.workers)
    requires after.workers == db.workers
    ensures Whole(after)
  {
  }

  /** No request leaves a row without what it points at, or two rows with one key or name. */
  lemma ApplyWhole(db: DB, r: Request)
    requires Safe(db) && Whole(db)
    ensures Whole(Apply(db, r))
  {
    hide Whole, Coherent, UniqueRanges, Linked, SameKeys, Lease, Drive, Retry, Finalize, Redistribute, Purge, Progress, BeatHeart,
         RegisterWorker;
    if r.Report? {
      if r.worker in db.workers { ReportWhole(db, r.worker, r.chunk, r.next, r.results); }
    } else if r.Register? {
      RegisterWhole(db, r.name);
    } else if r.DeleteJob? || r.DeleteItems? {
      DeleteWhole(db, r);
    } else if r.SweepDrained? {
      FinalizeWhole(db, r.held, r.order);
    } else if r.RemoveWorker? {
      RedistributeWhole(db, r.worker);
      PurgeWhole(db, r.worker);
    } else {
      RestKeys(db, r);
      SameKeysWhole(db, Apply(db, r));
    }
  }

  lemma RestKeys(db: DB, r: Request)
    requires !r.Report? && !r.Register? && !r.DeleteJob? && !r.DeleteItems? && !r.SweepDrained? && !r.RemoveWorker?
    ensures SameKeys(db, Apply(db, r))
  {
    hide SameKeys, Lease, Drive, Retry, BeatHeart, MarkStaleWorkers;
    KeysStay(db);
    if r.TakeLease? {
      if r.worker in db.workers { LeaseKeys(db, r.worker, r.lease); }
    } else if r.Heartbeat? {
      if r.worker in db.workers { BeatKeys(db, r.worker, r.active, r.lease, r.sample); }
    } else if r.MarkStale? {
      SweepKeys(db, r.offlineAfter);
    } else if r.Control? {
      if r.driven in db.jobs { DriveKeys(db, r.driven, r.command); }
    } else if r.RetryJob? {
      if r.retried in db.jobs { RetryKeysStay(db, r.retried); }
    } else {
      QuietKeys(db, r);
    }
  }

  lemma KeysStay(db: DB)
    ensures SameKeys(db, db)
  {
  }

  lemma LeaseKeys(db: DB, w: nat, lease: int)
    requires w in db.workers
    ensures SameKeys(db, Lease(db, w, lease).0)
  {
    hide Lease;
    LeaseShape(db, w, lease);
  }

  /** In every run from the empty database metadata, downloads, files and group links belong to items that
      exist, downloads name servers that exist, and primary keys and server names are unique. */
  lemma {:induction false} EveryRunIsWhole(rs: seq<Request>)
    ensures Whole(Run(EMPTY, rs))
  {
    hide Apply, Safe;
    if rs != [] {
      var n := |rs| - 1;
      EveryRunIsWhole(rs[..n]);
      EveryRunIsSafe(rs[..n]);
      ApplyWhole(Run(EMPTY, rs[..n]), rs[n]);
    }
  }
}
