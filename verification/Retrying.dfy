/** What a retry does to a job's failed identifiers, and what dismissing does to them: status by status. */
module Retrying {
  import opened Rows
  import opened Catalogue
  import opened Database
  import opened SchedulerSpec
  import opened Requests
  import opened LeaseSafety
  import opened Steps

  /** The statuses another attempt may cure. */
  predicate Failing(status: ItemStatus) {
    match status
    case Failed | RetryWait | RateLimited => true
    case Pending | Checking | NotFound | Found | DownloadQueued | Downloading | Completed | Skipped | Forbidden
       | Cancelled => false
  }

  ghost function FailingItems(db: DB, j: nat): set<Key> {
    set k | k in db.tables.items && k.job == j && Failing(db.tables.items[k].status)
  }

  /** `h` are the items of `s` with the least identifiers: 1000 of them, or all when there are fewer. */
  ghost predicate Foremost(h: set<Key>, s: set<Key>) {
    && h <= s
    && |h| == (if |s| <= 1000 then |s| else 1000)
    && forall a, b :: a in h && b in s && b !in h ==> a.id < b.id
  }

  lemma DistinctCount(ks: seq<Key>)
    requires forall i, k :: 0 <= i < k < |ks| ==> ks[i] != ks[k]
    ensures |(set k | k in ks)| == |ks|
  {
    if ks != [] {
      var n := |ks| - 1;
      DistinctCount(ks[..n]);
      assert (set k | k in ks) == (set k | k in ks[..n]) + {ks[n]};
    }
  }

  lemma PrefixMembers(ks: seq<Key>, n: nat)
    requires n <= |ks|
    ensures forall m :: 0 <= m < n ==> ks[m] in ks[..n]
  {
    forall m | 0 <= m < n ensures ks[m] in ks[..n] { assert ks[..n][m] == ks[m]; }
  }

  lemma FailingAreRetried(db: DB, j: nat)
    ensures RetryKeys(db, j) == FailingItems(db, j)
    ensures forall k :: k in FailingItems(db, j) ==> k.job == j
  {
  }

  /** The retry list holds the foremost failed items. */
  lemma RetryListIsForemost(db: DB, j: nat)
    ensures Foremost((set k | k in RetryList(db, j)), FailingItems(db, j))
  {
    hide OrderBy, Failing, Retryable, RetryKeys, FailingItems;
    var s := FailingItems(db, j);
    var all := RetryOrder(db, j);
    var ks := RetryList(db, j);
    var h := set k | k in ks;
    FailingAreRetried(db, j);
    DistinctCount(ks);
    forall a, b | a in h && b in s && b !in h ensures a.id < b.id {
      assert b in all;
      PrefixPrecedes(all, |ks|, a, b);
    }
  }

  /** In an ordered listing, what comes first has smaller identifiers. */
  lemma PrefixPrecedes(all: seq<Key>, n: nat, a: Key, b: Key)
    requires n <= |all| && forall i, k :: 0 <= i < k < |all| ==> all[i] != all[k] && all[i].id <= all[k].id
    requires a in all[..n] && b in all && b !in all[..n] && a.job == b.job
    ensures a.id < b.id
  {
    PrefixMembers(all, n);
    var i :| 0 <= i < |all[..n]| && all[..n][i] == a;
    var m :| 0 <= m < |all| && all[m] == b;
    assert all[i] == a;
  }

  /** The item is pending, and nothing else about it changed. */
  ghost predicate PendingAgain(db: DB, after: DB, k: Key) {
    k in db.tables.items && k in after.tables.items
    && after.tables.items[k] == db.tables.items[k].(status := ItemStatus.Pending)
  }

  lemma {:induction false} RequeueAllResets(db: DB, ks: seq<Key>)
    requires forall i :: 0 <= i < |ks| ==> ks[i] in db.tables.items
    requires forall i, k :: 0 <= i < k < |ks| ==> ks[i] != ks[k]
    ensures forall i :: 0 <= i < |ks| ==> PendingAgain(db, RequeueAll(db, ks), ks[i])
  {
    if ks != [] {
      var n := |ks| - 1;
      RequeueAllResets(db, ks[..n]);
      RequeueAllItems(db, ks[..n]);
      assert ks[n] !in ks[..n];
      forall i | 0 <= i < n ensures PendingAgain(db, RequeueAll(db, ks), ks[i]) {
        assert PendingAgain(db, RequeueAll(db, ks[..n]), ks[..n][i]);
      }
    }
  }

  /** A chunk of another job, of several identifiers, or of an identifier not in `h`. */
  predicate Aside(ch: Chunk, j: nat, h: set<Key>) {
    !(ch.job == j && ch.lo == ch.hi && Key(j, ch.lo) in h)
  }

  /** Only the items' own single-identifier chunks are written. */
  ghost predicate OthersStand(db: DB, after: DB, j: nat, h: set<Key>) {
    && (forall c :: c in db.chunks && Aside(db.chunks[c], j, h) ==> c in after.chunks && after.chunks[c] == db.chunks[c])
    && (forall c :: c in after.chunks && Aside(after.chunks[c], j, h) ==> c in db.chunks && after.chunks[c] == db.chunks[c])
    && after.workers == db.workers && after.now == db.now
    && after.tables == db.tables.(items := after.tables.items)
    && (forall k :: k in after.tables.items <==> k in db.tables.items)
  }

  lemma RequeueStands(db: DB, d: DB, j: nat, k: Key, h: set<Key>)
    requires Linked(d) && OthersStand(db, d, j, h) && k in d.tables.items && k.job == j && k in h
    requires forall c :: c in db.chunks ==> c < d.nextChunk
    ensures OthersStand(db, RequeueOne(d, k), j, h)
  {
    hide RequeueOne;
    var c := RequeueMeans(d, k);
    var e := RequeueShape(d, k);
    ChunksBelow(d);
    RequeueClock(d, k);
  }

  lemma RequeueClock(db: DB, k: Key)
    requires k in db.tables.items
    ensures RequeueOne(db, k).now == db.now
  {
  }

  lemma {:induction false} RequeueAllStands(db: DB, j: nat, ks: seq<Key>, h: set<Key>)
    requires Safe(db) && forall i :: 0 <= i < |ks| ==> ks[i] in db.tables.items && ks[i].job == j && ks[i] in h
    ensures OthersStand(db, RequeueAll(db, ks), j, h)
  {
    hide RequeueOne, Linked, Coherent, UniqueRanges;
    if ks != [] {
      var n := |ks| - 1;
      RequeueAllStands(db, j, ks[..n], h);
      RequeueAllSafe(db, ks[..n]);
      RequeueAllGrows(db, ks[..n]);
      RequeueStands(db, RequeueAll(db, ks[..n]), j, ks[n], h);
    }
  }

  /** The item has a pending chunk of its own: the one it had, rewound with one more attempt and its address
      kept, or a new one. */
  ghost predicate OwnChunk(db: DB, after: DB, k: Key) {
    exists c :: IsOwnChunk(db, after, k, c)
  }

  ghost predicate IsOwnChunk(db: DB, after: DB, k: Key, c: nat) {
    && c in after.chunks
    && if c in db.chunks then
         var ch := db.chunks[c];
         && ch.job == k.job && ch.lo == ch.hi == k.id
         && after.chunks[c] == Chunk(k.job, k.id, k.id, k.id, ch.url, ChunkStatus.Pending, None, None, ch.attempt + 1)
       else after.chunks[c] == Chunk(k.job, k.id, k.id, k.id, None, ChunkStatus.Pending, None, None, 0)
  }

  /** Re-queuing one more item, where only the chunks of `h` were written before. */
  lemma RequeueOwns(db: DB, d: DB, j: nat, k: Key, h: set<Key>)
    requires Linked(d) && OthersStand(db, d, j, h) && k in d.tables.items && k.job == j && k !in h
    requires forall c :: c in db.chunks ==> c < d.nextChunk
    ensures OwnChunk(db, RequeueOne(d, k), k)
    ensures forall q :: q in h && q.job == j && OwnChunk(db, d, q) ==> OwnChunk(db, RequeueOne(d, k), q)
  {
    var after := RequeueOne(d, k);
    var singles := SingleChunks(d, j, k.id);
    var c := if singles == {} then d.nextChunk else Least(singles);
    assert IsOwnChunk(db, after, k, c);
    forall q | q in h && q.job == j && OwnChunk(db, d, q) ensures OwnChunk(db, after, q) {
      var e :| IsOwnChunk(db, d, q, e);
      assert IsOwnChunk(db, after, q, e) by { ChunksBelow(d); }
    }
  }

  lemma {:induction false} RequeueAllOwns(db: DB, j: nat, ks: seq<Key>)
    requires Safe(db) && forall i :: 0 <= i < |ks| ==> ks[i] in db.tables.items && ks[i].job == j
    requires forall i, k :: 0 <= i < k < |ks| ==> ks[i] != ks[k]
    ensures forall i :: 0 <= i < |ks| ==> OwnChunk(db, RequeueAll(db, ks), ks[i])
  {
    hide RequeueOne, Linked, Coherent, UniqueRanges, OwnChunk, OthersStand;
    if ks != [] {
      var n := |ks| - 1;
      var h := set k | k in ks[..n];
      RequeueAllOwns(db, j, ks[..n]);
      RequeueAllStands(db, j, ks[..n], h);
      RequeueAllSafe(db, ks[..n]);
      RequeueAllGrows(db, ks[..n]);
      assert ks[n] !in ks[..n];
      RequeueOwns(db, RequeueAll(db, ks[..n]), j, ks[n], h);
      forall i | 0 <= i < n ensures OwnChunk(db, RequeueAll(db, ks), ks[i]) {
        assert ks[..n][i] == ks[i] && ks[i] in h;
      }
    }
  }

  lemma {:induction false} RequeueAllGrows(db: DB, ks: seq<Key>)
    requires Linked(db) && forall i :: 0 <= i < |ks| ==> ks[i] in db.tables.items
    ensures db.nextChunk <= RequeueAll(db, ks).nextChunk
    ensures forall c :: c in db.chunks ==> c < RequeueAll(db, ks).nextChunk
  {
    hide Linked;
    ChunksBelow(db);
    if ks != [] { RequeueAllGrows(db, ks[..|ks| - 1]); }
  }

  /** A retry of job `j` that takes exactly the items `h`: each is pending, handed out again by a pending
      chunk of its own, and no other row changes, except that a finished job runs again. */
  ghost predicate Retried(db: DB, after: DB, j: nat, h: set<Key>)
    requires j in db.jobs
  {
    && (forall k :: k in h ==> OwnChunk(db, after, k) && PendingAgain(db, after, k))
    && (forall k :: k in db.tables.items && k !in h ==> k in after.tables.items && after.tables.items[k] == db.tables.items[k])
    && OthersStand(db, after, j, h)
    && after.jobs == (if h != {} && (db.jobs[j].state.Completed? || db.jobs[j].state.Failed?)
                      then db.jobs[j := db.jobs[j].(state := JobState.Running)] else db.jobs)
  }

  /** A retry takes the first 1000 of the job's items, by identifier, that are Failed, RetryWait or
      RateLimited, and no others. */
  lemma RetryTakesTheForemost(db: DB, j: nat)
    requires Safe(db) && j in db.jobs
    ensures exists h :: Foremost(h, FailingItems(db, j)) && Retried(db, Apply(db, RetryJob(j)), j, h)
    ensures |FailingItems(db, j)| <= 1000 ==> Retried(db, Apply(db, RetryJob(j)), j, FailingItems(db, j))
  {
    hide RetryList, Retry, Foremost, Retried, FailingItems, Safe;
    var h := set k | k in RetryList(db, j);
    RetryListIsForemost(db, j);
    RetryTakesItsList(db, j, h);
    if |FailingItems(db, j)| <= 1000 { AllAreForemost(h, FailingItems(db, j)); }
  }

  lemma AllAreForemost(h: set<Key>, s: set<Key>)
    requires Foremost(h, s) && |s| <= 1000
    ensures h == s
  {
    assert s == h + (s - h) && |s| == |h| + |s - h|;
  }

  lemma RetryTakesItsList(db: DB, j: nat, h: set<Key>)
    requires Safe(db) && j in db.jobs && h == set k | k in RetryList(db, j)
    ensures Retried(db, Retry(db, j), j, h)
  {
    hide Safe, RequeueAll, RetryList, OwnChunk, PendingAgain, OthersStand;
    var ks := RetryList(db, j);
    var d := RequeueAll(db, ks);
    RequeueAllOwns(db, j, ks);
    RequeueAllSafe(db, ks);
    RequeueAllResets(db, ks);
    RequeueAllItems(db, ks);
    RequeueAllStands(db, j, ks, h);
    var after := Retry(db, j);
    assert ks == [] <==> h == {} by { if ks != [] { assert ks[0] in h; } }
    RetryReopens(db, j);
    forall k | k in h ensures OwnChunk(db, after, k) && PendingAgain(db, after, k) {
      var i :| 0 <= i < |ks| && ks[i] == k;
      SamePending(db, d, after, k);
      assert OwnChunk(db, d, ks[i]);
    }
    SameStand(db, d, after, j, h);
  }

  lemma {:induction false} RetryReopens(db: DB, j: nat)
    requires j in db.jobs
    ensures var d := RequeueAll(db, RetryList(db, j)); Retry(db, j) == d.(jobs := Retry(db, j).jobs)
  {
    hide RetryList;
  }

  lemma SamePending(db: DB, d: DB, after: DB, k: Key)
    requires after.tables == d.tables && after.chunks == d.chunks
    ensures PendingAgain(db, d, k) ==> PendingAgain(db, after, k)
    ensures OwnChunk(db, d, k) ==> OwnChunk(db, after, k)
  {
    if OwnChunk(db, d, k) {
      var c :| IsOwnChunk(db, d, k, c);
      assert IsOwnChunk(db, after, k, c);
    }
  }

  lemma SameStand(db: DB, d: DB, after: DB, j: nat, h: set<Key>)
    requires OthersStand(db, d, j, h) && after == d.(jobs := after.jobs)
    ensures OthersStand(db, after, j, h)
  {
  }

  // ---- Dismissing --------------------------------------------------------------------------------

  /** Dismissing cancels the failed items of the job, or of all jobs, and leaves every other item. */
  lemma DismissCancels(db: DB, of: Option<nat>, k: Key)
    requires k in db.tables.items
    ensures var after, row := Apply(db, DismissAll(of)), db.tables.items[k];
            && after == db.(tables := db.tables.(items := after.tables.items))
            && after.tables.items.Keys == db.tables.items.Keys
            && after.tables.items[k] ==
                 if Failing(row.status) && (of == None || of == Some(k.job)) then row.(status := Cancelled) else row
  {
  }

  /** Dismissing one item cancels it if it failed, and touches nothing else. */
  lemma DismissCancelsOne(db: DB, k: Key, q: Key)
    requires q in db.tables.items
    ensures var after, row := Apply(db, Dismiss(k)), db.tables.items[q];
            && after == db.(tables := db.tables.(items := after.tables.items))
            && after.tables.items.Keys == db.tables.items.Keys
            && after.tables.items[q] == if q == k && Failing(row.status) then row.(status := Cancelled) else row
  {
    hide Apply;
    DismissedRow(db.tables.items[q]);
    DismissOneWrites(db, k);
  }

  lemma DismissedRow(row: Item)
    ensures Dismissed(row) == if Failing(row.status) then row.(status := Cancelled) else row
  {
  }

  lemma DismissOneWrites(db: DB, k: Key)
    ensures Apply(db, Dismiss(k)) ==
            if k in db.tables.items
            then db.(tables := db.tables.(items := db.tables.items[k := Dismissed(db.tables.items[k])])) else db
  {
  }

  /** What was dismissed is not retried. */
  lemma DismissedAreNotRetried(db: DB, j: nat)
    ensures var after := Apply(db, DismissAll(Some(j))); Apply(after, RetryJob(j)) == after
  {
    var after := Apply(db, DismissAll(Some(j)));
    hide Apply;
    DismissEmpties(db, j);
    assert RetryKeys(after, j) == {};
    RetriesNothing(after, j);
  }

  lemma DismissEmpties(db: DB, j: nat)
    ensures FailingItems(Apply(db, DismissAll(Some(j))), j) == {}
  {
    forall k | k in db.tables.items && k.job == j
      ensures !Failing(Apply(db, DismissAll(Some(j))).tables.items[k].status)
    {
      DismissCancels(db, Some(j), k);
    }
  }

  lemma RetriesNothing(db: DB, j: nat)
    requires RetryKeys(db, j) == {}
    ensures Apply(db, RetryJob(j)) == db
  {
    assert RetryList(db, j) == [];
  }
}
