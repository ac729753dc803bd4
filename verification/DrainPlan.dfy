/** What starting a drain queues: every video that exists only on the server and can be fetched again. */
module DrainPlan {
  import opened Rows
  import opened Catalogue
  import opened Database
  import opened Chunking
  import opened SchedulerSpec
  import opened DrainSpec
  import opened LeaseSafety

  ghost predicate Distinct(ts: seq<Transfer>) {
    forall i, k :: 0 <= i < k < |ts| ==> ts[i].id != ts[k].id
  }

  ghost predicate FromItem(db: DB, ks: seq<Key>, t: Transfer) {
    exists k :: k in ks && TransferOf(db, k) == Some(t)
  }

  ghost predicate HasSource(ts: seq<Transfer>, source: string) {
    exists t :: t in ts && t.source == source
  }

  /** The transfers name distinct videos. */
  lemma {:induction false} TransfersDistinct(db: DB, ks: seq<Key>)
    ensures Distinct(Transfers(db, ks))
  {
    if ks != [] {
      TransfersDistinct(db, ks[..|ks| - 1]);
    }
  }

  /** Each transfer comes from one of the items. */
  lemma {:induction false} TransfersFromItems(db: DB, ks: seq<Key>)
    ensures forall t :: t in Transfers(db, ks) ==> FromItem(db, ks, t)
  {
    if ks != [] {
      var n := |ks| - 1;
      TransfersFromItems(db, ks[..n]);
      assert ks == ks[..n] + [ks[n]];
      forall t | t in Transfers(db, ks) ensures FromItem(db, ks, t) {
        if t in Transfers(db, ks[..n]) {
          var k :| k in ks[..n] && TransferOf(db, k) == Some(t);
          assert k in ks;
        } else {
          assert ks[n] in ks && TransferOf(db, ks[n]) == Some(t);
        }
      }
    }
  }

  lemma HasVideoGrows(ts: seq<Transfer>, t: Transfer, id: int)
    ensures HasVideo(ts, id) || t.id == id ==> HasVideo(ts + [t], id)
  {
    var us := ts + [t];
    if HasVideo(ts, id) {
      var i :| 0 <= i < |ts| && ts[i].id == id;
      assert us[i].id == id;
    }
    assert us[|ts|] == t;
  }

  /** Every item whose video can be fetched again is served. */
  lemma {:induction false} TransfersServe(db: DB, ks: seq<Key>, k: Key)
    requires k in ks && TransferOf(db, k).Some?
    ensures HasVideo(Transfers(db, ks), k.id)
  {
    var n := |ks| - 1;
    var before := Transfers(db, ks[..n]);
    assert ks == ks[..n] + [ks[n]];
    if k in ks[..n] {
      TransfersServe(db, ks[..n], k);
    }
    if TransferOf(db, ks[n]).Some? {
      HasVideoGrows(before, TransferOf(db, ks[n]).value, k.id);
    }
  }

  lemma {:induction false} SourcesCover(ts: seq<Transfer>)
    ensures forall t :: t in ts ==> t.source in Sources(ts)
    ensures forall s :: s in Sources(ts) ==> HasSource(ts, s)
  {
    if ts != [] {
      var n := |ts| - 1;
      SourcesCover(ts[..n]);
      assert ts == ts[..n] + [ts[n]];
      forall s | s in Sources(ts) ensures HasSource(ts, s) {
        if s in Sources(ts[..n]) {
          var t :| t in ts[..n] && t.source == s;
          assert t in ts;
        } else {
          assert ts[n] in ts && ts[n].source == s;
        }
      }
    }
  }

  lemma {:induction false} InsertedById(ts: seq<Transfer>, t: Transfer)
    ensures forall u :: u in InsertById(ts, t) <==> u in ts || u == t
    ensures Distinct(ts) && !HasVideo(ts, t.id) ==> Distinct(InsertById(ts, t))
  {
    if ts != [] && ts[|ts| - 1].id > t.id {
      var n := |ts| - 1;
      var init := ts[..n];
      InsertedById(init, t);
      assert ts == init + [ts[n]];
      if Distinct(ts) && !HasVideo(ts, t.id) {
        forall i | 0 <= i < n ensures init[i].id != t.id { assert ts[i] == init[i]; }
        var r := InsertById(init, t);
        forall i | 0 <= i < |r| ensures r[i].id != ts[n].id {
          assert r[i] in r;
        }
      }
    }
  }

  lemma {:induction false} EntriesCover(ts: seq<Transfer>, source: string)
    ensures forall t :: t in EntriesOf(ts, source) <==> t in ts && t.source == source
    ensures Distinct(ts) ==> Distinct(EntriesOf(ts, source))
  {
    if ts != [] {
      var n := |ts| - 1;
      var init := ts[..n];
      var before := EntriesOf(init, source);
      EntriesCover(init, source);
      InsertedById(before, ts[n]);
      assert ts == init + [ts[n]];
      if Distinct(ts) {
        forall i | 0 <= i < |before| ensures before[i].id != ts[n].id {
          assert before[i] in before;
          assert before[i] in init;
        }
      }
    }
  }

  lemma TransferTargetsDisjoint(ts: seq<Transfer>)
    requires Distinct(ts)
    ensures Disjoint(TargetsOf(ts)) && !HasOpenEnded(TargetsOf(ts))
  {
  }

  function UrlOf(t: Target): Option<string> {
    if t.Link? then Some(t.url) else None
  }

  ghost predicate RowFor(rows: seq<Chunk>, x: int, url: Option<string>) {
    exists i :: 0 <= i < |rows| && rows[i].Spans(x) && rows[i].url == url
  }

  lemma RowForConcat(a: seq<Chunk>, b: seq<Chunk>, x: int, url: Option<string>)
    ensures RowFor(a, x, url) || RowFor(b, x, url) ==> RowFor(a + b, x, url)
  {
    var c := a + b;
    if RowFor(a, x, url) {
      var i :| 0 <= i < |a| && a[i].Spans(x) && a[i].url == url;
      assert c[i].Spans(x) && c[i].url == url;
    }
    if RowFor(b, x, url) {
      var i :| 0 <= i < |b| && b[i].Spans(x) && b[i].url == url;
      assert c[|a| + i].Spans(x) && c[|a| + i].url == url;
    }
  }

  lemma TargetRowFor(j: nat, t: Target, workers: int)
    ensures RowFor(TargetChunks(j, t, workers), Bounds(t).lo, UrlOf(t))
  {
    var x := Bounds(t).lo;
    var rows := TargetChunks(j, t, workers);
    assert Bounds(t).Has(x);
    TargetRows(j, t, workers, x);
    RowCount(rows, x);
    var i :| 0 <= i < |rows| && rows[i].Spans(x);
    assert rows[i].url == UrlOf(t);
  }

  lemma {:induction false} ChunksOfRowFor(j: nat, targets: seq<Target>, workers: int, i: nat)
    requires i < |targets|
    ensures RowFor(ChunksOf(j, targets, targets[i].Link?, workers), Bounds(targets[i]).lo, UrlOf(targets[i]))
  {
    var n := |targets| - 1;
    var links := targets[i].Link?;
    var before := ChunksOf(j, targets[..n], links, workers);
    var rows := TargetChunks(j, targets[n], workers);
    if i == n {
      TargetRowFor(j, targets[n], workers);
    } else {
      ChunksOfRowFor(j, targets[..n], workers, i);
    }
    RowForConcat(before, rows, Bounds(targets[i]).lo, UrlOf(targets[i]));
  }

  /** A pending chunk of a running job that any server may take hands the video out, with its link. */
  ghost predicate IsQueued(db: DB, t: Transfer, c: nat) {
    && c in db.chunks && db.chunks[c].status.Pending? && db.chunks[c].Todo(t.id) && db.chunks[c].url == t.url
    && JobRunning(db, db.chunks[c].job)
    && db.jobs[db.chunks[c].job].owner.None? && db.jobs[db.chunks[c].job].source == t.source
  }

  /** Such a chunk is among those from `first` on. */
  ghost predicate Queued(db: DB, first: nat, t: Transfer) {
    exists c :: c >= first && IsQueued(db, t, c)
  }

  lemma RowsDisjointNoClash(db: DB, rows: seq<Chunk>, j: nat)
    requires AllFresh(rows, j) && RowsDisjoint(rows)
    requires forall c :: c in db.chunks ==> db.chunks[c].job != j
    ensures !Clash(db.chunks, rows)
  {
    forall i, k | 0 <= i < k < |rows| ensures !SameRange(rows[i], rows[k]) {
      assert Fresh(rows[i], j) && Fresh(rows[k], j) && RowOnce(rows, rows[i].lo);
      assert rows[i].Spans(rows[i].lo);
      assert rows[k].Spans(rows[k].lo);
    }
    forall c, i | c in db.chunks && 0 <= i < |rows| ensures !SameRange(db.chunks[c], rows[i]) {
      assert Fresh(rows[i], j);
    }
  }

  /** A new job over finite targets whose rows clash with nothing starts with exactly those rows. */
  lemma {:induction false} AddRunningShape(db: DB, job: Job, rows: seq<Chunk>)
    requires job.targets != [] && !HasOpenEnded(job.targets)
    requires rows == PreCut(db.nextJob, job.targets, OnlineCount(db)) && !Clash(db.chunks, rows)
    ensures AddRunning(db, job).Some?
    ensures var after := AddRunning(db, job).value;
            && after.chunks == Inserted(db.chunks, db.nextChunk, rows)
            && after.jobs == db.jobs[db.nextJob := job.(cursor := None, state := JobState.Running)]
  {
    var d := AddJob(db, job);
    assert OnlineCount(d) == OnlineCount(db);
    assert d.jobs[db.nextJob] == job;
  }

  lemma TransferRows(j: nat, ts: seq<Transfer>, workers: int)
    requires Distinct(ts)
    ensures var rows := PreCut(j, TargetsOf(ts), workers);
            AllFresh(rows, j) && RowsDisjoint(rows) && forall t :: t in ts ==> RowFor(rows, t.id, t.url)
  {
    var targets := TargetsOf(ts);
    TransferTargetsDisjoint(ts);
    PreCutCovers(j, targets, workers);
    PreCutDisjoint(j, targets, workers);
    forall t | t in ts ensures RowFor(PreCut(j, targets, workers), t.id, t.url) {
      var i :| 0 <= i < |ts| && ts[i] == t;
      ChunksOfRowFor(j, targets, workers, i);
      RowForConcat(ChunksOf(j, targets, false, workers), ChunksOf(j, targets, true, workers), t.id, t.url);
    }
  }

  lemma NoChunksAhead(db: DB)
    requires Linked(db)
    ensures forall c :: c in db.chunks ==> db.chunks[c].job != db.nextJob && c < db.nextChunk
  {
  }

  lemma {:induction false} InsertedQueued(db: DB, after: DB, j: nat, rows: seq<Chunk>, ts: seq<Transfer>, source: string)
    requires forall c :: c in db.chunks ==> c < db.nextChunk
    requires AllFresh(rows, j) && after.chunks == Inserted(db.chunks, db.nextChunk, rows)
    requires JobRunning(after, j) && after.jobs[j].owner.None? && after.jobs[j].source == source
    requires forall t :: t in ts ==> t.source == source && RowFor(rows, t.id, t.url)
    ensures forall t :: t in ts ==> Queued(after, db.nextChunk, t)
  {
    hide AllFresh, RowFor, Queued, Inserted;
    InsertedRows(db.chunks, db.nextChunk, rows);
    forall t | t in ts ensures Queued(after, db.nextChunk, t) {
      QueuedByRow(after, j, db.nextChunk, rows, t);
    }
  }

  /** A job over distinct videos always starts, and hands each of them out. */
  lemma AddTransferJob(db: DB, source: string, ts: seq<Transfer>)
    requires Linked(db) && ts != [] && Distinct(ts)
    requires forall t :: t in ts ==> t.source == source
    ensures AddRunning(db, NewJob(source, TargetsOf(ts))).Some?
    ensures forall t :: t in ts ==> Queued(AddRunning(db, NewJob(source, TargetsOf(ts))).value, db.nextChunk, t)
  {
    hide Linked, Distinct, Disjoint, RowsDisjoint, Clash, AddRunning, PreCut, RowFor, Queued, OnlineCount, Inserted,
         AllFresh;
    var j := db.nextJob;
    var job := NewJob(source, TargetsOf(ts));
    var rows := PreCut(j, job.targets, OnlineCount(db));
    TransferRows(j, ts, OnlineCount(db));
    TransferTargetsDisjoint(ts);
    NoChunksAhead(db);
    RowsDisjointNoClash(db, rows, j);
    AddRunningShape(db, job, rows);
    InsertedQueued(db, AddRunning(db, job).value, j, rows, ts, source);
  }

  lemma QueuedByRow(after: DB, j: nat, first: nat, rows: seq<Chunk>, t: Transfer)
    requires AllFresh(rows, j) && RowFor(rows, t.id, t.url)
    requires forall r :: 0 <= r < |rows| ==> first + r in after.chunks && after.chunks[first + r] == rows[r]
    requires JobRunning(after, j) && after.jobs[j].owner.None? && after.jobs[j].source == t.source
    ensures Queued(after, first, t)
  {
    var r :| 0 <= r < |rows| && rows[r].Spans(t.id) && rows[r].url == t.url;
    assert Fresh(rows[r], j);
    assert IsQueued(after, t, first + r);
  }

  /** Starting a new job leaves the chunks and jobs there are. */
  lemma AddRunningAdds(db: DB, job: Job)
    requires Linked(db) && AddRunning(db, job).Some?
    ensures var after := AddRunning(db, job).value;
            && (forall c :: c in db.chunks ==> c in after.chunks && after.chunks[c] == db.chunks[c])
            && (forall j :: j in db.jobs ==> j in after.jobs && after.jobs[j] == db.jobs[j])
            && db.nextChunk <= after.nextChunk
  {
    hide PreCut, OneDownload;
    var d := AddJob(db, job);
    InsertedRows(d.chunks, d.nextChunk, PreCut(db.nextJob, job.targets, OnlineCount(d)));
  }

  /** A later transfer job disturbs none of the chunks queued before. */
  lemma AddRunningKeepsQueued(db: DB, job: Job, first: nat, t: Transfer)
    requires Safe(db) && Queued(db, first, t) && AddRunning(db, job).Some?
    ensures Queued(AddRunning(db, job).value, first, t)
  {
    hide AddRunning, Coherent, UniqueRanges, OneDownload;
    var c :| c >= first && IsQueued(db, t, c);
    AddRunningAdds(db, job);
    assert IsQueued(AddRunning(db, job).value, t, c);
  }

  lemma {:induction false} TransferJobQueues(db: DB, first: nat, ts: seq<Transfer>, source: string)
    requires Safe(db) && Distinct(ts) && HasSource(ts, source) && first <= db.nextChunk
    ensures AddRunning(db, NewJob(source, TargetsOf(EntriesOf(ts, source)))).Some?
    ensures forall t :: t in ts && (Queued(db, first, t) || t.source == source) ==>
              Queued(AddRunning(db, NewJob(source, TargetsOf(EntriesOf(ts, source)))).value, first, t)
  {
    var entries := EntriesOf(ts, source);
    EntriesCover(ts, source);
    var t0 :| t0 in ts && t0.source == source;
    assert t0 in entries;
    AddTransferJob(db, source, entries);
    forall t | t in ts && (Queued(db, first, t) || t.source == source)
      ensures Queued(AddRunning(db, NewJob(source, TargetsOf(entries))).value, first, t)
    {
      if t.source != source { AddRunningKeepsQueued(db, NewJob(source, TargetsOf(entries)), first, t); }
    }
  }

  lemma {:induction false} TransferJobsQueue(db: DB, ts: seq<Transfer>, sources: seq<string>)
    requires Safe(db) && Distinct(ts)
    requires forall s :: s in sources ==> HasSource(ts, s)
    ensures TransferJobs(db, ts, sources).Some?
    ensures forall t :: t in ts && t.source in sources ==> Queued(TransferJobs(db, ts, sources).value, db.nextChunk, t)
    ensures db.nextChunk <= TransferJobs(db, ts, sources).value.nextChunk
  {
    hide Linked, Coherent, UniqueRanges, Distinct, AddRunning, EntriesOf, HasSource, Queued;
    if sources != [] {
      var n := |sources| - 1;
      assert sources == sources[..n] + [sources[n]];
      TransferJobsQueue(db, ts, sources[..n]);
      TransferJobsSafe(db, ts, sources[..n]);
      var d := TransferJobs(db, ts, sources[..n]).value;
      TransferJobQueues(d, db.nextChunk, ts, sources[n]);
      AddRunningAdds(d, NewJob(sources[n], TargetsOf(EntriesOf(ts, sources[n]))));
    }
  }

  lemma SetDrainingKeepsQueued(db: DB, w: nat, first: nat, t: Transfer)
    requires w in db.workers && Queued(db, first, t)
    ensures Queued(SetDraining(db, w), first, t)
  {
    var c :| c >= first && IsQueued(db, t, c);
    assert IsQueued(SetDraining(db, w), t, c);
  }

  /** Some fetchable item of the same video that only `w` holds is queued. */
  ghost predicate VideoQueued(db: DB, after: DB, w: nat, id: int) {
    exists q :: q in Unmigrated(db.tables, w) && q.id == id && TransferOf(db, q).Some?
                && Queued(after, db.nextChunk, TransferOf(db, q).value)
  }

  /** Starting a drain always succeeds, and queues every video that exists only on the server and can be
      fetched again: a pending chunk of a running job, open to any server, carries it and its link. */
  lemma StartDrainQueues(db: DB, w: nat)
    requires Safe(db) && w in db.workers
    ensures StartDrain(db, w).Some?
    ensures forall k :: k in Unmigrated(db.tables, w) && TransferOf(db, k).Some? ==>
              VideoQueued(db, StartDrain(db, w).value, w, k.id)
  {
    var ts := Plan(db, w);
    PlanQueues(db, w);
    var d := TransferJobs(db, ts, Sources(ts)).value;
    forall k | k in Unmigrated(db.tables, w) && TransferOf(db, k).Some?
      ensures VideoQueued(db, StartDrain(db, w).value, w, k.id)
    {
      var q := PlanServes(db, w, k);
      SetDrainingKeepsQueued(d, w, db.nextChunk, TransferOf(db, q).value);
    }
  }

  lemma {:induction false} PlanQueues(db: DB, w: nat)
    requires Safe(db)
    ensures TransferJobs(db, Plan(db, w), Sources(Plan(db, w))).Some?
    ensures forall t :: t in Plan(db, w) ==> Queued(TransferJobs(db, Plan(db, w), Sources(Plan(db, w))).value, db.nextChunk, t)
  {
    var ts := Plan(db, w);
    TransfersDistinct(db, PendingKeys(db, w));
    SourcesCover(ts);
    TransferJobsQueue(db, ts, Sources(ts));
  }

  lemma PlanServes(db: DB, w: nat, k: Key) returns (q: Key)
    requires k in Unmigrated(db.tables, w) && TransferOf(db, k).Some?
    ensures q in Unmigrated(db.tables, w) && q.id == k.id && TransferOf(db, q).Some?
    ensures TransferOf(db, q).value in Plan(db, w)
  {
    var ks := PendingKeys(db, w);
    var ts := Plan(db, w);
    TransfersFromItems(db, ks);
    TransfersServe(db, ks, k);
    var i :| 0 <= i < |ts| && ts[i].id == k.id;
    assert ts[i] in ts;
    q :| q in ks && TransferOf(db, q) == Some(ts[i]);
  }
}
