/** The chunks a drain queues, item by item: one for each video that exists only on the server and can
    be fetched again, and none besides. */
module DrainQueue {
  import opened Rows
  import opened Catalogue
  import opened Database
  import opened Chunking
  import opened SchedulerSpec
  import opened DrainSpec
  import opened LeaseSafety
  import opened DrainPlan

  // ---- What is queued, in terms of the items -----------------------------------------------------

  /** A completed copy on the server, and no completed copy of that video on another one. */
  ghost predicate OnlyThere(db: DB, w: nat, k: Key) {
    && k in db.tables.items && db.tables.items[k].status.Completed? && db.tables.items[k].worker == Some(w)
    && forall q :: q in db.tables.items && q.id == k.id && db.tables.items[q].status.Completed? ==>
         db.tables.items[q].worker in {None, Some(w)}
  }

  /** Where the item's job fetches from; an item whose job is gone counts as kinescope's. */
  function SourceOf(db: DB, k: Key): string {
    if k.job in db.jobs then db.jobs[k.job].source else "kinescope"
  }

  /** The address a YouTube video is fetched from; other videos are fetched by number. */
  function AddressOf(db: DB, k: Key): Option<string> {
    if SourceOf(db, k) != "youtube" || k !in db.tables.metas then None else db.tables.metas[k].link
  }

  /** A YouTube video can be fetched again when its address is stored, any other always. */
  predicate Refetchable(db: DB, k: Key) {
    SourceOf(db, k) == "youtube" ==> AddressOf(db, k).Some? && AddressOf(db, k).value != ""
  }

  /** The first created of the video's items that exist only there and can be fetched again. */
  ghost predicate Chosen(db: DB, w: nat, q: Key) {
    && OnlyThere(db, w, q) && Refetchable(db, q)
    && forall p :: OnlyThere(db, w, p) && Refetchable(db, p) && p.id == q.id ==>
         db.tables.items[q].pk <= db.tables.items[p].pk
  }

  /** The chunk hands out the item's video and nothing else, for a running job of its source that any
      server may work on. */
  ghost predicate Fetches(db: DB, after: DB, q: Key, c: nat) {
    && c in after.chunks && after.chunks[c].status.Pending?
    && after.chunks[c].lo == after.chunks[c].hi == after.chunks[c].next == q.id
    && after.chunks[c].url == AddressOf(db, q)
    && after.chunks[c].job in after.jobs && after.jobs[after.chunks[c].job].state.Running?
    && after.jobs[after.chunks[c].job].owner.None? && after.jobs[after.chunks[c].job].source == SourceOf(db, q)
  }

  /** A new chunk fetches the video of a chosen item. */
  ghost predicate FetchedAgain(db: DB, after: DB, w: nat, id: int) {
    exists q, c :: c >= db.nextChunk && Chosen(db, w, q) && q.id == id && Fetches(db, after, q, c)
  }

  /** The chunk fetches the video of a chosen item. */
  ghost predicate ForChosen(db: DB, after: DB, w: nat, c: nat) {
    exists q :: Chosen(db, w, q) && Fetches(db, after, q, c)
  }

  // ---- The plan takes the chosen items -----------------------------------------------------------

  lemma TransferIs(db: DB, k: Key)
    ensures TransferOf(db, k) ==
            if Refetchable(db, k) then Some(Transfer(k.id, SourceOf(db, k), AddressOf(db, k))) else None
  {
  }

  lemma UnmigratedIs(db: DB, w: nat, k: Key)
    ensures k in Unmigrated(db.tables, w) <==> OnlyThere(db, w, k)
  {
    var t := db.tables;
    if k in t.items && CopyElsewhere(t, w, k.id) {
      var q :| q in t.items && q.id == k.id && t.items[q].status.Completed? && t.items[q].worker.Some? && t.items[q].worker != Some(w);
    }
  }

  /** The transfer is that of an item no earlier item of the same video could stand for. */
  ghost predicate FromFirst(db: DB, ks: seq<Key>, t: Transfer) {
    exists i :: 0 <= i < |ks| && TransferOf(db, ks[i]) == Some(t) && Leads(db, ks, i)
  }

  ghost predicate Leads(db: DB, ks: seq<Key>, i: nat)
    requires i < |ks|
  {
    forall m :: 0 <= m < i && ks[m].id == ks[i].id ==> TransferOf(db, ks[m]).None?
  }

  lemma {:induction false} TransfersLead(db: DB, ks: seq<Key>)
    ensures forall t :: t in Transfers(db, ks) ==> FromFirst(db, ks, t)
  {
    hide TransferOf;
    if ks != [] {
      var n := |ks| - 1;
      var before := Transfers(db, ks[..n]);
      TransfersLead(db, ks[..n]);
      forall t | t in Transfers(db, ks) ensures FromFirst(db, ks, t) {
        if t in before {
          var i :| 0 <= i < n && TransferOf(db, ks[..n][i]) == Some(t) && Leads(db, ks[..n], i);
          assert forall m :: 0 <= m < i ==> ks[..n][m] == ks[m];
          assert Leads(db, ks, i);
        } else {
          forall m | 0 <= m < n && ks[m].id == ks[n].id ensures TransferOf(db, ks[m]).None? {
            if TransferOf(db, ks[m]).Some? {
              assert ks[..n][m] == ks[m];
              TransfersServe(db, ks[..n], ks[m]);
            }
          }
          assert Leads(db, ks, n);
        }
      }
    }
  }

  /** Every transfer of the plan is a chosen item's. */
  lemma PlanChooses(db: DB, w: nat, t: Transfer) returns (q: Key)
    requires t in Plan(db, w)
    ensures Chosen(db, w, q) && t == Transfer(q.id, SourceOf(db, q), AddressOf(db, q))
  {
    hide TransferOf, OnlyThere, Unmigrated, Transfers, Refetchable, AddressOf, SourceOf;
    var ks := PendingKeys(db, w);
    TransfersLead(db, ks);
    assert FromFirst(db, ks, t);
    var i :| 0 <= i < |ks| && TransferOf(db, ks[i]) == Some(t) && Leads(db, ks, i);
    q := ks[i];
    TransferIs(db, q);
    UnmigratedIs(db, w, q);
    forall p | OnlyThere(db, w, p) && Refetchable(db, p) && p.id == q.id
      ensures p in db.tables.items && q in db.tables.items && db.tables.items[q].pk <= db.tables.items[p].pk
    {
      LeaderIsFirst(db, w, ks, i, p);
    }
  }

  lemma LeaderIsFirst(db: DB, w: nat, ks: seq<Key>, i: nat, p: Key)
    requires ks == PendingKeys(db, w) && i < |ks| && Leads(db, ks, i)
    requires OnlyThere(db, w, p) && Refetchable(db, p) && p.id == ks[i].id
    ensures p in db.tables.items && ks[i] in db.tables.items && db.tables.items[ks[i]].pk <= db.tables.items[p].pk
  {
    hide TransferOf, OnlyThere, Unmigrated, Refetchable, AddressOf, SourceOf;
    UnmigratedIs(db, w, p);
    UnmigratedIs(db, w, ks[i]);
    TransferIs(db, p);
    OnlyThereHas(db, w, p);
    OnlyThereHas(db, w, ks[i]);
    var m :| 0 <= m < |ks| && ks[m] == p;
    assert m >= i;
  }

  lemma OnlyThereHas(db: DB, w: nat, k: Key)
    requires OnlyThere(db, w, k)
    ensures k in db.tables.items
  {
  }

  // ---- The transfer jobs hold one chunk per transfer ---------------------------------------------

  /** The row hands out the transfer's video and nothing else. */
  predicate RowOf(row: Chunk, t: Transfer) {
    row.lo == row.hi == row.next == t.id && row.url == t.url
  }

  ghost predicate OwnRow(row: Chunk, ts: seq<Transfer>) {
    exists t :: t in ts && RowOf(row, t)
  }

  lemma TransferRow(j: nat, t: Transfer, workers: int)
    ensures forall i :: 0 <= i < |TargetChunks(j, TargetOf(t), workers)| ==> RowOf(TargetChunks(j, TargetOf(t), workers)[i], t)
  {
    hide AutoChunkSize, Tiles;
    var target := TargetOf(t);
    var rows := TargetChunks(j, target, workers);
    forall i | 0 <= i < |rows| ensures RowOf(rows[i], t) {
      TargetRows(j, target, workers, rows[i].lo);
      TargetRows(j, target, workers, rows[i].hi);
      RowCount(rows, rows[i].lo);
      RowCount(rows, rows[i].hi);
      assert Fresh(rows[i], j);
      assert rows[i].Spans(rows[i].lo) && rows[i].Spans(rows[i].hi);
    }
  }

  lemma {:induction false} KindOwnRows(j: nat, ts: seq<Transfer>, links: bool, workers: int)
    ensures forall row :: row in ChunksOf(j, TargetsOf(ts), links, workers) ==> OwnRow(row, ts)
  {
    if ts != [] {
      var n := |ts| - 1;
      var rows := TargetChunks(j, TargetOf(ts[n]), workers);
      KindOwnRows(j, ts[..n], links, workers);
      TransferRow(j, ts[n], workers);
      assert TargetsOf(ts)[..n] == TargetsOf(ts[..n]);
      forall row | row in ChunksOf(j, TargetsOf(ts), links, workers) ensures OwnRow(row, ts) {
        if row in ChunksOf(j, TargetsOf(ts[..n]), links, workers) {
          var t :| t in ts[..n] && RowOf(row, t);
          assert t in ts;
        } else {
          assert row in rows && ts[n] in ts;
        }
      }
    }
  }

  /** The chunk is one of the new ones, and fetches one of the transfers of these sources. */
  ghost predicate ForTransfer(after: DB, ts: seq<Transfer>, sources: seq<string>, c: nat) {
    exists t :: t in ts && t.source in sources && IsQueued(after, t, c) && RowOf(after.chunks[c], t)
  }

  /** The chunks fetch different videos, and those of one source belong to one job, in the order of their
      identifiers. */
  ghost predicate Apart(after: DB, c: nat, d: nat)
    requires c in after.chunks && d in after.chunks
  {
    var x, y := after.chunks[c], after.chunks[d];
    && x.lo != y.lo
    && (x.job in after.jobs && y.job in after.jobs && after.jobs[x.job].source == after.jobs[y.job].source ==>
          x.job == y.job && x.lo < y.lo)
  }

  /** Beyond what was there before, one chunk per video, each fetching one of the transfers. */
  ghost predicate OnlyTransfers(db: DB, after: DB, ts: seq<Transfer>, sources: seq<string>) {
    && db.nextChunk <= after.nextChunk
    && (forall c :: c in after.chunks && c < db.nextChunk ==> c in db.chunks)
    && (forall c :: c in after.chunks && c >= db.nextChunk ==> ForTransfer(after, ts, sources, c))
    && (forall c, d :: c in after.chunks && d in after.chunks && db.nextChunk <= c < d ==> Apart(after, c, d))
  }

  lemma {:induction false} InsertedTransfers(db: DB, after: DB, j: nat, rows: seq<Chunk>, ts: seq<Transfer>, source: string)
    requires forall c :: c in db.chunks ==> c < db.nextChunk
    requires AllFresh(rows, j) && RowsDisjoint(rows) && Ascending(rows)
    requires after.chunks == Inserted(db.chunks, db.nextChunk, rows) && after.nextChunk == db.nextChunk + |rows|
    requires JobRunning(after, j) && after.jobs[j].owner.None? && after.jobs[j].source == source
    requires forall t :: t in ts ==> t.source == source
    requires forall row :: row in rows ==> OwnRow(row, ts)
    ensures OnlyTransfers(db, after, ts, [source])
  {
    hide Inserted, AllFresh, RowsDisjoint, JobRunning, Ascending;
    InsertedRows(db.chunks, db.nextChunk, rows);
    forall c | c in after.chunks && c >= db.nextChunk ensures ForTransfer(after, ts, [source], c) {
      InsertedTransfer(after, j, rows[c - db.nextChunk], c, ts, source, rows);
    }
    forall c, d | c in after.chunks && d in after.chunks && db.nextChunk <= c < d
      ensures Apart(after, c, d)
    {
      RowsApart(rows, j, c - db.nextChunk, d - db.nextChunk);
    }
  }

  lemma InsertedTransfer(after: DB, j: nat, row: Chunk, c: nat, ts: seq<Transfer>, source: string, rows: seq<Chunk>)
    requires AllFresh(rows, j) && row in rows && OwnRow(row, ts)
    requires c in after.chunks && after.chunks[c] == row
    requires JobRunning(after, j) && after.jobs[j].owner.None? && after.jobs[j].source == source
    requires forall t :: t in ts ==> t.source == source
    ensures ForTransfer(after, ts, [source], c)
  {
    assert Fresh(row, j);
    var t :| t in ts && RowOf(row, t);
    assert IsQueued(after, t, c);
  }

  lemma RowsApart(rows: seq<Chunk>, j: nat, i: nat, k: nat)
    requires AllFresh(rows, j) && RowsDisjoint(rows) && Ascending(rows) && i < k < |rows|
    ensures rows[i].lo < rows[k].lo && rows[i].job == rows[k].job == j
  {
    assert Fresh(rows[i], j) && Fresh(rows[k], j) && RowOnce(rows, rows[i].lo);
  }

  // ---- In the order of their identifiers ---------------------------------------------------------

  ghost predicate Ascending(rows: seq<Chunk>) {
    forall i, k :: 0 <= i < k < |rows| ==> rows[i].lo <= rows[k].lo
  }

  ghost predicate SortedById(ts: seq<Transfer>) {
    forall i, k :: 0 <= i < k < |ts| ==> ts[i].id <= ts[k].id
  }

  /** All by address, or all by number. */
  ghost predicate OneKind(ts: seq<Transfer>, links: bool) {
    forall t :: t in ts ==> t.url.Some? == links
  }

  lemma {:induction false} InsertSorts(ts: seq<Transfer>, t: Transfer)
    requires SortedById(ts)
    ensures SortedById(InsertById(ts, t))
    ensures forall u :: u in InsertById(ts, t) <==> u in ts || u == t
  {
    if ts != [] && ts[|ts| - 1].id > t.id {
      var n := |ts| - 1;
      InsertSorts(ts[..n], t);
      assert ts == ts[..n] + [ts[n]];
      forall i | 0 <= i < |InsertById(ts[..n], t)| ensures InsertById(ts[..n], t)[i].id <= ts[n].id {
        assert InsertById(ts[..n], t)[i] in InsertById(ts[..n], t);
      }
    }
  }

  lemma {:induction false} EntriesSort(ts: seq<Transfer>, source: string)
    ensures SortedById(EntriesOf(ts, source))
  {
    if ts != [] {
      EntriesSort(ts[..|ts| - 1], source);
      InsertSorts(EntriesOf(ts[..|ts| - 1], source), ts[|ts| - 1]);
    }
  }

  lemma {:induction false} KindAscends(j: nat, ts: seq<Transfer>, links: bool, workers: int)
    requires SortedById(ts)
    ensures Ascending(ChunksOf(j, TargetsOf(ts), links, workers))
  {
    if ts != [] {
      var n := |ts| - 1;
      assert TargetsOf(ts)[..n] == TargetsOf(ts[..n]);
      var before := ChunksOf(j, TargetsOf(ts[..n]), links, workers);
      KindAscends(j, ts[..n], links, workers);
      KindOwnRows(j, ts[..n], links, workers);
      TransferRow(j, ts[n], workers);
      forall i | 0 <= i < |before| ensures before[i].lo <= ts[n].id {
        assert before[i] in before;
        var t :| t in ts[..n] && RowOf(before[i], t);
      }
    }
  }

  lemma {:induction false} OtherKindEmpty(j: nat, ts: seq<Transfer>, links: bool, workers: int)
    requires OneKind(ts, !links)
    ensures ChunksOf(j, TargetsOf(ts), links, workers) == []
  {
    if ts != [] {
      var n := |ts| - 1;
      assert ts[n] in ts && forall t :: t in ts[..n] ==> t in ts;
      assert TargetsOf(ts)[..n] == TargetsOf(ts[..n]);
      OtherKindEmpty(j, ts[..n], links, workers);
    }
  }

  lemma RowsAscend(j: nat, ts: seq<Transfer>, links: bool, workers: int)
    requires SortedById(ts) && OneKind(ts, links)
    ensures Ascending(PreCut(j, TargetsOf(ts), workers))
  {
    KindAscends(j, ts, links, workers);
    OtherKindEmpty(j, ts, !links, workers);
    assert PreCut(j, TargetsOf(ts), workers) == ChunksOf(j, TargetsOf(ts), links, workers);
  }

  // ---- Job by job --------------------------------------------------------------------------------

  lemma AddedTransfers(db: DB, source: string, ts: seq<Transfer>, links: bool)
    requires Linked(db) && ts != [] && Distinct(ts) && SortedById(ts) && OneKind(ts, links)
    requires forall t :: t in ts ==> t.source == source
    requires AddRunning(db, NewJob(source, TargetsOf(ts))).Some?
    ensures OnlyTransfers(db, AddRunning(db, NewJob(source, TargetsOf(ts))).value, ts, [source])
  {
    hide Linked, Distinct, Disjoint, RowsDisjoint, Clash, AddRunning, PreCut, RowFor, OnlineCount, Inserted,
         AllFresh, OwnRow, OnlyTransfers, SortedById, OneKind, Ascending;
    var j := db.nextJob;
    var job := NewJob(source, TargetsOf(ts));
    var rows := PreCut(j, job.targets, OnlineCount(db));
    var after := AddRunning(db, job).value;
    TransferRows(j, ts, OnlineCount(db));
    TransferTargetsDisjoint(ts);
    NoChunksAhead(db);
    RowsDisjointNoClash(db, rows, j);
    AddRunningShape(db, job, rows);
    AddRunningNext(db, job, rows);
    OwnRows(j, ts, OnlineCount(db));
    RowsAscend(j, ts, links, OnlineCount(db));
    InsertedTransfers(db, after, j, rows, ts, source);
  }

  lemma OwnRows(j: nat, ts: seq<Transfer>, workers: int)
    ensures forall row :: row in PreCut(j, TargetsOf(ts), workers) ==> OwnRow(row, ts)
  {
    KindOwnRows(j, ts, false, workers);
    KindOwnRows(j, ts, true, workers);
  }

  lemma AddRunningNext(db: DB, job: Job, rows: seq<Chunk>)
    requires job.targets != [] && !HasOpenEnded(job.targets)
    requires rows == PreCut(db.nextJob, job.targets, OnlineCount(db)) && AddRunning(db, job).Some?
    ensures AddRunning(db, job).value.nextChunk == db.nextChunk + |rows|
  {
    var d := AddJob(db, job);
    assert OnlineCount(d) == OnlineCount(db);
    assert d.jobs[db.nextJob] == job;
  }

  /** Two stages of queuing, for different sources. */
  lemma OnlyTransfersJoin(db: DB, d: DB, after: DB, ts: seq<Transfer>, entries: seq<Transfer>, sources: seq<string>, source: string)
    requires Distinct(ts) && source !in sources
    requires OnlyTransfers(db, d, ts, sources) && OnlyTransfers(d, after, entries, [source])
    requires forall c :: c in d.chunks ==> c < d.nextChunk && c in after.chunks && after.chunks[c] == d.chunks[c]
    requires forall j :: j in d.jobs ==> j in after.jobs && after.jobs[j] == d.jobs[j]
    requires forall c :: c in d.chunks ==> d.chunks[c].job in d.jobs
    requires forall t :: t in entries ==> t in ts && t.source == source
    ensures OnlyTransfers(db, after, ts, sources + [source])
  {
    hide Distinct;
    forall c | c in after.chunks && c >= db.nextChunk ensures ForTransfer(after, ts, sources + [source], c) {
      if c >= d.nextChunk {
        var t :| t in entries && t.source in [source] && IsQueued(after, t, c) && RowOf(after.chunks[c], t);
        assert t in ts && t.source in sources + [source];
      } else {
        var t :| t in ts && t.source in sources && IsQueued(d, t, c) && RowOf(d.chunks[c], t);
        assert IsQueued(after, t, c) && t.source in sources + [source];
      }
    }
    forall c, e | c in after.chunks && e in after.chunks && db.nextChunk <= c < e
      ensures Apart(after, c, e)
    {
      if e < d.nextChunk {
        assert Apart(d, c, e);
      } else if c < d.nextChunk {
        var t :| t in ts && t.source in sources && IsQueued(d, t, c) && RowOf(d.chunks[c], t);
        var u :| u in entries && u.source in [source] && IsQueued(after, u, e) && RowOf(after.chunks[e], u);
        SameIdSame(ts, t, u);
      }
    }
  }

  lemma SameIdSame(ts: seq<Transfer>, t: Transfer, u: Transfer)
    requires Distinct(ts) && t in ts && u in ts && t != u
    ensures t.id != u.id
  {
    var i :| 0 <= i < |ts| && ts[i] == t;
    var k :| 0 <= k < |ts| && ts[k] == u;
    assert i < k || k < i;
  }

  /** YouTube videos are fetched by address, others by number. */
  ghost predicate ByAddress(ts: seq<Transfer>) {
    forall t :: t in ts ==> (t.url.Some? <==> t.source == "youtube")
  }

  lemma {:induction false} TransferJobsAre(db: DB, ts: seq<Transfer>, sources: seq<string>)
    requires Safe(db) && Distinct(ts) && ByAddress(ts)
    requires forall s :: s in sources ==> HasSource(ts, s)
    requires forall i, k :: 0 <= i < k < |sources| ==> sources[i] != sources[k]
    ensures TransferJobs(db, ts, sources).Some? && OnlyTransfers(db, TransferJobs(db, ts, sources).value, ts, sources)
  {
    hide Linked, Coherent, UniqueRanges, Distinct, OnlyTransfers, AddRunning, HasSource, EntriesOf, ByAddress;
    TransferJobsQueue(db, ts, sources);
    if sources == [] {
      NothingQueued(db, ts);
    } else {
      var n := |sources| - 1;
      var d := TransferJobs(db, ts, sources[..n]).value;
      var entries := EntriesOf(ts, sources[n]);
      TransferJobsAre(db, ts, sources[..n]);
      TransferJobsSafe(db, ts, sources[..n]);
      NextSource(db, d, ts, sources[..n], sources[n]);
      assert sources == sources[..n] + [sources[n]];
    }
  }

  lemma NothingQueued(db: DB, ts: seq<Transfer>)
    requires Safe(db)
    ensures OnlyTransfers(db, db, ts, [])
  {
    hide Coherent, UniqueRanges;
    NoChunksAhead(db);
  }

  lemma ChunksHaveJobs(db: DB)
    requires Linked(db)
    ensures forall c :: c in db.chunks ==> db.chunks[c].job in db.jobs
  {
  }

  lemma {:induction false} NextSource(db: DB, d: DB, ts: seq<Transfer>, sources: seq<string>, source: string)
    requires Safe(d) && Distinct(ts) && ByAddress(ts) && source !in sources && HasSource(ts, source)
    requires OnlyTransfers(db, d, ts, sources) && AddRunning(d, NewJob(source, TargetsOf(EntriesOf(ts, source)))).Some?
    ensures OnlyTransfers(db, AddRunning(d, NewJob(source, TargetsOf(EntriesOf(ts, source)))).value, ts, sources + [source])
  {
    hide Linked, Coherent, UniqueRanges, Distinct, OnlyTransfers, AddRunning, EntriesOf, SortedById;
    var entries := EntriesOf(ts, source);
    EntriesCover(ts, source);
    var t :| t in ts && t.source == source;
    assert t in entries;
    EntriesSort(ts, source);
    AddedTransfers(d, source, entries, source == "youtube");
    AddRunningAdds(d, NewJob(source, TargetsOf(entries)));
    NoChunksAhead(d);
    ChunksHaveJobs(d);
    OnlyTransfersJoin(db, d, AddRunning(d, NewJob(source, TargetsOf(entries))).value, ts, entries, sources, source);
  }

  // ---- What a drain queues -----------------------------------------------------------------------

  lemma {:induction false} SourcesDistinct(ts: seq<Transfer>)
    ensures forall i, k :: 0 <= i < k < |Sources(ts)| ==> Sources(ts)[i] != Sources(ts)[k]
  {
    if ts != [] { SourcesDistinct(ts[..|ts| - 1]); }
  }

  lemma PlanIsQueued(db: DB, w: nat) returns (d: DB)
    requires Safe(db) && w in db.workers && StartDrain(db, w).Some?
    ensures w in d.workers && StartDrain(db, w).value == SetDraining(d, w)
    ensures OnlyTransfers(db, d, Plan(db, w), Sources(Plan(db, w)))
    ensures forall c :: c in db.chunks ==> c in d.chunks && d.chunks[c] == db.chunks[c]
  {
    hide Safe, OnlyTransfers, HasSource;
    var ts := Plan(db, w);
    TransfersDistinct(db, PendingKeys(db, w));
    SourcesCover(ts);
    SourcesDistinct(ts);
    forall t | t in ts ensures t.url.Some? <==> t.source == "youtube" {
      var q := PlanChooses(db, w, t);
      TransferIs(db, q);
    }
    TransferJobsAre(db, ts, Sources(ts));
    TransferJobsAdd(db, ts, Sources(ts));
    d := TransferJobs(db, ts, Sources(ts)).value;
  }

  lemma {:induction false} TransferJobsAdd(db: DB, ts: seq<Transfer>, sources: seq<string>)
    requires Safe(db) && TransferJobs(db, ts, sources).Some?
    ensures var d := TransferJobs(db, ts, sources).value;
            forall c :: c in db.chunks ==> c in d.chunks && d.chunks[c] == db.chunks[c]
  {
    hide Linked, Coherent, UniqueRanges, AddRunning;
    if sources != [] {
      var n := |sources| - 1;
      TransferJobsAdd(db, ts, sources[..n]);
      TransferJobsSafe(db, ts, sources[..n]);
      AddRunningAdds(TransferJobs(db, ts, sources[..n]).value, NewJob(sources[n], TargetsOf(EntriesOf(ts, sources[n]))));
    }
  }

  /** A drain queues a new chunk for every video that exists only on the server and can be fetched again:
      by number, or by its stored address when it is a YouTube video. */
  lemma DrainFetchesEachVideo(db: DB, w: nat, k: Key)
    requires Safe(db) && w in db.workers && OnlyThere(db, w, k) && Refetchable(db, k)
    ensures StartDrain(db, w).Some? && FetchedAgain(db, StartDrain(db, w).value, w, k.id)
  {
    hide Safe, StartDrain, TransferOf, OnlyThere, Refetchable, Chosen, Unmigrated;
    UnmigratedIs(db, w, k);
    TransferIs(db, k);
    StartDrainQueues(db, w);
    var after := StartDrain(db, w).value;
    var q :| q in Unmigrated(db.tables, w) && q.id == k.id && TransferOf(db, q).Some?
             && Queued(after, db.nextChunk, TransferOf(db, q).value);
    TransferIs(db, q);
    var t := TransferOf(db, q).value;
    var c :| c >= db.nextChunk && IsQueued(after, t, c);
    DrainFetchesNothingElse(db, w);
    var p :| Chosen(db, w, p) && Fetches(db, after, p, c);
    assert p.id == k.id;
  }

  /** Every new chunk fetches such a video, no video is fetched twice, each source has one job, and of the
      chunks there were only those the server held change: they go back. */
  lemma DrainFetchesNothingElse(db: DB, w: nat)
    requires Safe(db) && w in db.workers && StartDrain(db, w).Some?
    ensures var after := StartDrain(db, w).value;
            && (forall c :: c in after.chunks && c >= db.nextChunk ==> ForChosen(db, after, w, c))
            && (forall c, d :: c in after.chunks && d in after.chunks && db.nextChunk <= c < d ==> Apart(after, c, d))
            && (forall c :: c < db.nextChunk ==> (c in after.chunks <==> c in db.chunks))
            && (forall c :: c in db.chunks ==>
                  after.chunks[c] == if db.chunks[c].holder == Some(w)
                                     then db.chunks[c].(status := ChunkStatus.Pending, holder := None, expires := None)
                                     else db.chunks[c])
  {
    hide StartDrain, Safe, Plan, Sources, Chosen, Linked;
    var d := PlanIsQueued(db, w);
    var after := StartDrain(db, w).value;
    forall c | c in after.chunks && c >= db.nextChunk ensures ForChosen(db, after, w, c) {
      var ts := Plan(db, w);
      var t :| t in ts && t.source in Sources(ts) && IsQueued(d, t, c) && RowOf(d.chunks[c], t);
      var q := PlanChooses(db, w, t);
      assert Fetches(db, after, q, c);
    }
    forall c, e | c in after.chunks && e in after.chunks && db.nextChunk <= c < e ensures Apart(after, c, e) {
      assert Apart(d, c, e);
    }
    HeldIsLeased(db, w);
  }

  lemma HeldIsLeased(db: DB, w: nat)
    requires Safe(db)
    ensures forall c :: c in db.chunks ==>
              c < db.nextChunk && (db.chunks[c].holder == Some(w) ==> db.chunks[c].status.Leased?)
  {
    hide Linked, UniqueRanges;
    NoChunksAhead(db);
    forall c | c in db.chunks && db.chunks[c].holder == Some(w) ensures db.chunks[c].status.Leased? {
      assert CoherentChunk(db, c);
    }
  }
}
