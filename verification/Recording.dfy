/** What a report leaves in the tables, column by column: of several results about one identifier the last one
    counts, except that a stored file keeps what was first recorded of it. */
module Recording {
  import opened Rows
  import opened Catalogue
  import opened Database
  import opened Requests
  import opened LeaseSafety

  // ---- Which results count -----------------------------------------------------------------------

  /** No later result is about the same identifier. */
  predicate Last(rs: seq<Result>, i: nat) {
    i < |rs| && forall k :: i < k < |rs| ==> rs[k].id != rs[i].id
  }

  /** Found or downloaded, with a title or a link. */
  predicate Described(r: Result) {
    (r.status == ItemStatus.Found || r.status == ItemStatus.Completed)
    && ((r.title != None && r.title != Some("")) || (r.link != None && r.link != Some("")))
  }

  predicate LastDescribed(rs: seq<Result>, i: nat) {
    && i < |rs| && Described(rs[i])
    && forall k :: i < k < |rs| && rs[k].id == rs[i].id ==> !Described(rs[k])
  }

  /** Downloaded, with a stored file. */
  predicate Finished(r: Result) {
    r.status == ItemStatus.Completed && r.path != None && r.path != Some("")
  }

  predicate LastFinished(rs: seq<Result>, i: nat) {
    && i < |rs| && Finished(rs[i])
    && forall k :: i < k < |rs| && rs[k].id == rs[i].id ==> !Finished(rs[k])
  }

  /** The first finished result about its identifier with its file. */
  predicate FirstFinished(rs: seq<Result>, i: nat) {
    && i < |rs| && Finished(rs[i])
    && forall k :: 0 <= k < i && rs[k].id == rs[i].id && Finished(rs[k]) ==> rs[k].path != rs[i].path
  }

  function TimesAbout(rs: seq<Result>, id: int): nat {
    if rs == [] then 0
    else TimesAbout(rs[..|rs| - 1], id) + if rs[|rs| - 1].id == id then 1 else 0
  }

  // ---- Items -------------------------------------------------------------------------------------

  lemma {:induction false} LastItem(t: Tables, who: Reporter, rs: seq<Result>, i: nat)
    requires Last(rs, i)
    ensures var k, u := Key(who.job, rs[i].id), RecordAll(t, who, rs);
            && k in u.items && u.items[k].status == rs[i].status && u.items[k].error == rs[i].error
            && u.items[k].worker == Some(who.worker)
  {
    var n := |rs| - 1;
    RecordShape(RecordAll(t, who, rs[..n]), who, rs[n]);
    if i < n {
      assert forall k :: 0 <= k < n ==> rs[..n][k] == rs[k];
      LastItem(t, who, rs[..n], i);
    }
  }

  lemma {:induction false} OtherItem(t: Tables, who: Reporter, rs: seq<Result>, k: Key)
    requires forall i :: 0 <= i < |rs| ==> k != Key(who.job, rs[i].id)
    ensures var u := RecordAll(t, who, rs);
            && (k in u.items <==> k in t.items) && (k in t.items ==> u.items[k] == t.items[k])
  {
    if rs != [] {
      var n := |rs| - 1;
      RecordShape(RecordAll(t, who, rs[..n]), who, rs[n]);
      OtherItem(t, who, rs[..n], k);
    }
  }

  /** Each result about an item is one more attempt at it; its primary key stays. */
  lemma {:induction false} Attempts(t: Tables, who: Reporter, rs: seq<Result>, id: int)
    ensures var k, u := Key(who.job, id), RecordAll(t, who, rs);
            && (k in t.items ==> k in u.items && u.items[k].pk == t.items[k].pk
                                 && u.items[k].attempts == t.items[k].attempts + TimesAbout(rs, id))
            && (k !in t.items && k in u.items ==> u.items[k].attempts == TimesAbout(rs, id))
            && (k !in t.items && k !in u.items ==> TimesAbout(rs, id) == 0)
  {
    if rs != [] {
      var n := |rs| - 1;
      RecordShape(RecordAll(t, who, rs[..n]), who, rs[n]);
      Attempts(t, who, rs[..n], id);
    }
  }

  // ---- Metadata ----------------------------------------------------------------------------------

  lemma {:induction false} LastMeta(t: Tables, who: Reporter, rs: seq<Result>, i: nat)
    requires LastDescribed(rs, i)
    ensures var k, u := Key(who.job, rs[i].id), RecordAll(t, who, rs);
            && k in u.metas && u.metas[k].title == rs[i].title && u.metas[k].link == rs[i].link
            && u.metas[k].mime == rs[i].mime && u.metas[k].size == rs[i].size && u.metas[k].seconds == rs[i].seconds
  {
    var n := |rs| - 1;
    RecordShape(RecordAll(t, who, rs[..n]), who, rs[n]);
    if i < n {
      assert forall k :: 0 <= k < n ==> rs[..n][k] == rs[k];
      LastMeta(t, who, rs[..n], i);
    }
  }

  lemma {:induction false} OtherMeta(t: Tables, who: Reporter, rs: seq<Result>, k: Key)
    requires forall i :: 0 <= i < |rs| && k == Key(who.job, rs[i].id) ==> !Described(rs[i])
    ensures var u := RecordAll(t, who, rs);
            && (k in u.metas <==> k in t.metas) && (k in t.metas ==> u.metas[k] == t.metas[k])
  {
    if rs != [] {
      var n := |rs| - 1;
      RecordShape(RecordAll(t, who, rs[..n]), who, rs[n]);
      assert forall i :: 0 <= i < n ==> rs[..n][i] == rs[i];
      OtherMeta(t, who, rs[..n], k);
    }
  }

  // ---- Downloads ---------------------------------------------------------------------------------

  /** `d` is the item's one download row. */
  ghost predicate DownloadOf(t: Tables, k: Key, d: nat) {
    && d in t.downloads && t.downloads[d].item == k
    && forall e :: e in t.downloads && t.downloads[e].item == k ==> e == d
  }

  /** The item has one download row, the one it had if it had one, with this worker and size. */
  ghost predicate DownloadedAs(t: Tables, u: Tables, k: Key, w: nat, bytes: int) {
    exists d ::
      && DownloadOf(u, k, d) && u.downloads[d].worker == Some(w) && u.downloads[d].bytes == bytes
      && forall e :: e in t.downloads && t.downloads[e].item == k ==> e == d
  }

  /** What one finished result does to the download rows. */
  lemma FinishedDownload(t: Tables, who: Reporter, r: Result) returns (d: nat)
    requires OneDownload(t) && Finished(r)
    ensures OneDownload(Record(t, who, r))
    ensures Record(t, who, r).downloads
            == t.downloads[d := Download(Key(who.job, r.id), Some(who.worker), if r.size.Some? then r.size.value else 0)]
    ensures d in t.downloads ==> t.downloads[d].item == Key(who.job, r.id)
    ensures d !in t.downloads ==> forall e :: e in t.downloads ==> t.downloads[e].item != Key(who.job, r.id)
    ensures Filed(t, Record(t, who, r), d, who, r)
  {
    d := DownloadFor(t, who.KeyOf(r));
    RecordKeeps(t, who, r);
    FinishedShape(t, who, r);
    DownloadForIs(t, who.KeyOf(r));
  }

  lemma UnfinishedDownload(t: Tables, who: Reporter, r: Result)
    requires OneDownload(t) && !Finished(r)
    ensures var u := Record(t, who, r); u.downloads == t.downloads && u.files == t.files && u.groups == t.groups
  {
    FinishedShape(t, who, r);
  }

  lemma LastDownload(t: Tables, who: Reporter, rs: seq<Result>, i: nat) returns (d: nat)
    requires OneDownload(t) && LastFinished(rs, i)
    ensures var k, u := Key(who.job, rs[i].id), RecordAll(t, who, rs);
            && DownloadOf(u, k, d) && u.downloads[d].worker == Some(who.worker)
            && u.downloads[d].bytes == if rs[i].size.Some? then rs[i].size.value else 0
    ensures forall e :: e in t.downloads && t.downloads[e].item == Key(who.job, rs[i].id) ==> e == d
  {
    hide Record, Filed;
    var n := |rs| - 1;
    var before := RecordAll(t, who, rs[..n]);
    RecordAllKeeps(t, who, rs[..n]);
    RecordAllKeeps(t, who, rs);
    if i == n {
      d := FinishedDownload(before, who, rs[n]);
    } else {
      assert forall k :: 0 <= k < n ==> rs[..n][k] == rs[k];
      d := LastDownload(t, who, rs[..n], i);
      if Finished(rs[n]) { var e := FinishedDownload(before, who, rs[n]); } else { UnfinishedDownload(before, who, rs[n]); }
    }
  }

  lemma {:induction false} OtherDownload(t: Tables, who: Reporter, rs: seq<Result>, d: nat)
    requires OneDownload(t)
    requires d in t.downloads ==>
               forall i :: 0 <= i < |rs| && t.downloads[d].item == Key(who.job, rs[i].id) ==> !Finished(rs[i])
    ensures var u := RecordAll(t, who, rs);
            && (d in t.downloads ==> d in u.downloads && u.downloads[d] == t.downloads[d])
            && (d !in t.downloads && d in u.downloads ==>
                  exists i :: 0 <= i < |rs| && Finished(rs[i]) && u.downloads[d].item == Key(who.job, rs[i].id))
  {
    hide Record, Filed;
    if rs != [] {
      var n := |rs| - 1;
      var before := RecordAll(t, who, rs[..n]);
      RecordAllKeeps(t, who, rs[..n]);
      assert forall i :: 0 <= i < n ==> rs[..n][i] == rs[i];
      OtherDownload(t, who, rs[..n], d);
      if Finished(rs[n]) {
        var e := FinishedDownload(before, who, rs[n]);
      } else {
        UnfinishedDownload(before, who, rs[n]);
      }
      if d !in t.downloads && d in before.downloads {
        var i :| 0 <= i < n && Finished(rs[..n][i]) && before.downloads[d].item == Key(who.job, rs[..n][i].id);
        assert Finished(rs[i]) && before.downloads[d].item == Key(who.job, rs[i].id);
      }
    }
  }

  // ---- Files and groups --------------------------------------------------------------------------

  /** The row was written for the result. */
  ghost predicate FileFrom(u: Tables, who: Reporter, f: FileKey, r: Result) {
    && f in u.files && f.download in u.downloads && u.downloads[f.download].item == Key(who.job, r.id)
    && r.path == Some(f.path) && u.files[f].checksum == r.checksum && u.files[f].size == r.size
    && u.files[f].host == who.host
  }

  /** Each finished result's file is recorded with its item's download. */
  ghost predicate Stored(u: Tables, who: Reporter, r: Result) {
    exists f :: f in u.files && f.download in u.downloads && u.downloads[f.download].item == Key(who.job, r.id)
                && r.path == Some(f.path)
  }

  lemma {:induction false} FilesAre(t: Tables, who: Reporter, rs: seq<Result>)
    requires OneDownload(t)
    ensures var u := RecordAll(t, who, rs);
            && (forall f :: f in t.files ==> f in u.files && u.files[f] == t.files[f])
            && (forall f :: f in u.files && f !in t.files ==>
                  exists i :: 0 <= i < |rs| && FirstFinished(rs, i) && FileFrom(u, who, f, rs[i]))
            && (forall i :: 0 <= i < |rs| && Finished(rs[i]) ==> Stored(u, who, rs[i]))
  {
    hide Record, Filed, FirstFinished, Stored, FileFrom;
    if rs != [] {
      var n := |rs| - 1;
      var before, u := RecordAll(t, who, rs[..n]), RecordAll(t, who, rs);
      RecordAllKeeps(t, who, rs[..n]);
      RecordAllKeeps(t, who, rs);
      RecordKeeps(before, who, rs[n]);
      FilesAre(t, who, rs[..n]);
      assert forall i :: 0 <= i < n ==> rs[..n][i] == rs[i];
      forall f | f in u.files && f !in t.files
        ensures exists i :: 0 <= i < |rs| && FirstFinished(rs, i) && FileFrom(u, who, f, rs[i])
      {
        if f in before.files {
          var i :| 0 <= i < n && FirstFinished(rs[..n], i) && FileFrom(before, who, f, rs[..n][i]);
          FirstStays(rs, n, i);
          FileStays(before, u, who, f, rs[i]);
        } else {
          NewFile(before, who, rs, f);
        }
      }
      forall i | 0 <= i < |rs| && Finished(rs[i]) ensures Stored(u, who, rs[i]) {
        if i < n {
          assert Stored(before, who, rs[..n][i]);
          StoredStays(before, u, who, rs[i]);
        } else {
          LastIsStored(before, who, rs[n]);
        }
      }
    }
  }

  lemma FirstStays(rs: seq<Result>, n: nat, i: nat)
    requires i < n <= |rs| && FirstFinished(rs[..n], i)
    ensures FirstFinished(rs, i)
  {
    assert forall k :: 0 <= k < n ==> rs[..n][k] == rs[k];
  }

  lemma FileStays(t: Tables, u: Tables, who: Reporter, f: FileKey, r: Result)
    requires Extends(t, u) && FileFrom(t, who, f, r)
    ensures FileFrom(u, who, f, r)
  {
  }

  lemma StoredStays(t: Tables, u: Tables, who: Reporter, r: Result)
    requires Extends(t, u) && Stored(t, who, r)
    ensures Stored(u, who, r)
  {
    var f :| f in t.files && f.download in t.downloads && t.downloads[f.download].item == Key(who.job, r.id)
             && r.path == Some(f.path);
    assert f in u.files;
  }

  lemma LastIsStored(t: Tables, who: Reporter, r: Result)
    requires OneDownload(t) && Finished(r)
    ensures Stored(Record(t, who, r), who, r)
  {
    hide Record;
    var d := FinishedDownload(t, who, r);
    assert FileKey(d, r.path.value) in Record(t, who, r).files;
  }

  /** A file row that the last result added is its own, and no earlier result had that file. */
  lemma NewFile(before: Tables, who: Reporter, rs: seq<Result>, f: FileKey)
    requires rs != [] && OneDownload(before)
    requires forall i :: 0 <= i < |rs| - 1 && Finished(rs[i]) ==> Stored(before, who, rs[i])
    requires f in Record(before, who, rs[|rs| - 1]).files && f !in before.files
    ensures FirstFinished(rs, |rs| - 1) && FileFrom(Record(before, who, rs[|rs| - 1]), who, f, rs[|rs| - 1])
  {
    hide Record;
    var n := |rs| - 1;
    var r := rs[n];
    if Finished(r) {
      var d := FinishedDownload(before, who, r);
      forall k | 0 <= k < n && rs[k].id == r.id && Finished(rs[k]) ensures rs[k].path != r.path {
        assert Stored(before, who, rs[k]);
      }
    } else {
      UnfinishedDownload(before, who, r);
    }
  }

  lemma {:induction false} GroupsAre(t: Tables, who: Reporter, rs: seq<Result>, g: GroupLink)
    requires OneDownload(t)
    ensures g in RecordAll(t, who, rs).groups <==>
              || g in t.groups
              || (who.group == Some(g.group) && exists i :: 0 <= i < |rs| && Finished(rs[i]) && g.item == Key(who.job, rs[i].id))
  {
    hide Record;
    if rs != [] {
      var n := |rs| - 1;
      var before := RecordAll(t, who, rs[..n]);
      RecordAllKeeps(t, who, rs[..n]);
      GroupsAre(t, who, rs[..n], g);
      assert forall i :: 0 <= i < n ==> rs[..n][i] == rs[i];
      if Finished(rs[n]) { var d := FinishedDownload(before, who, rs[n]); } else { UnfinishedDownload(before, who, rs[n]); }
      if exists i :: 0 <= i < n && Finished(rs[i]) && g.item == Key(who.job, rs[i].id) {
        var i :| 0 <= i < n && Finished(rs[i]) && g.item == Key(who.job, rs[i].id);
        assert Finished(rs[..n][i]) && g.item == Key(who.job, rs[..n][i].id);
      }
    }
  }

  // ---- An accepted report ------------------------------------------------------------------------

  lemma {:induction false} ReportTables(db: DB, w: nat, c: nat, next: int, rs: seq<Result>)
    requires w in db.workers && HasLease(db, w, c) && db.chunks[c].job in db.jobs
    ensures var j := db.chunks[c].job;
            Apply(db, Report(w, c, next, rs)).tables
            == RecordAll(db.tables, Reporter(j, db.jobs[j].group, w, db.workers[w].name), rs)
  {
  }

  lemma SafeTables(db: DB, c: nat)
    requires Safe(db) && c in db.chunks
    ensures OneDownload(db.tables) && db.chunks[c].job in db.jobs
  {
  }

  /** After an accepted report, the item of each identifier it mentions has status, error and worker of the last
      result about it and one more attempt for each; every other item is as it was. */
  lemma {:induction false} ReportedItems(db: DB, w: nat, c: nat, next: int, rs: seq<Result>)
    requires Safe(db) && w in db.workers && HasLease(db, w, c)
    ensures var j, after := db.chunks[c].job, Apply(db, Report(w, c, next, rs)).tables.items;
            && (forall i :: 0 <= i < |rs| && Last(rs, i) ==>
                  var k := Key(j, rs[i].id);
                  && k in after && after[k].status == rs[i].status && after[k].error == rs[i].error && after[k].worker == Some(w)
                  && after[k].attempts == TimesAbout(rs, rs[i].id) + (if k in db.tables.items then db.tables.items[k].attempts else 0)
                  && (k in db.tables.items ==> after[k].pk == db.tables.items[k].pk))
            && (forall k :: (forall i :: 0 <= i < |rs| ==> k != Key(j, rs[i].id)) ==>
                  (k in after <==> k in db.tables.items) && (k in db.tables.items ==> after[k] == db.tables.items[k]))
  {
    hide Safe, RecordAll, Last, Apply;
    SafeTables(db, c);
    ReportTables(db, w, c, next, rs);
    var j := db.chunks[c].job;
    var who := Reporter(j, db.jobs[j].group, w, db.workers[w].name);
    forall i | 0 <= i < |rs| && Last(rs, i)
      ensures var k, after := Key(j, rs[i].id), RecordAll(db.tables, who, rs).items;
              && k in after && after[k].status == rs[i].status && after[k].error == rs[i].error && after[k].worker == Some(w)
              && after[k].attempts == TimesAbout(rs, rs[i].id) + (if k in db.tables.items then db.tables.items[k].attempts else 0)
              && (k in db.tables.items ==> after[k].pk == db.tables.items[k].pk)
    {
      LastItem(db.tables, who, rs, i);
      Attempts(db.tables, who, rs, rs[i].id);
    }
    forall k | forall i :: 0 <= i < |rs| ==> k != Key(j, rs[i].id)
      ensures var after := RecordAll(db.tables, who, rs).items;
              (k in after <==> k in db.tables.items) && (k in db.tables.items ==> after[k] == db.tables.items[k])
    {
      OtherItem(db.tables, who, rs, k);
    }
  }

  /** After it, the metadata of an identifier is, column by column, that of the last result about it that found or
      downloaded it with a title or a link; without such a result it is as it was. */
  lemma ReportedMetadata(db: DB, w: nat, c: nat, next: int, rs: seq<Result>)
    requires Safe(db) && w in db.workers && HasLease(db, w, c)
    ensures var j, after := db.chunks[c].job, Apply(db, Report(w, c, next, rs)).tables.metas;
            && (forall i :: 0 <= i < |rs| && LastDescribed(rs, i) ==>
                  var k := Key(j, rs[i].id);
                  && k in after && after[k].title == rs[i].title && after[k].link == rs[i].link
                  && after[k].mime == rs[i].mime && after[k].size == rs[i].size && after[k].seconds == rs[i].seconds)
            && (forall k :: (forall i :: 0 <= i < |rs| && k == Key(j, rs[i].id) ==> !Described(rs[i])) ==>
                  (k in after <==> k in db.tables.metas) && (k in db.tables.metas ==> after[k] == db.tables.metas[k]))
  {
    hide Safe, RecordAll, LastDescribed, Described, Apply;
    SafeTables(db, c);
    ReportTables(db, w, c, next, rs);
    var j := db.chunks[c].job;
    var who := Reporter(j, db.jobs[j].group, w, db.workers[w].name);
    forall i | 0 <= i < |rs| && LastDescribed(rs, i)
      ensures var k, after := Key(j, rs[i].id), RecordAll(db.tables, who, rs).metas;
              && k in after && after[k].title == rs[i].title && after[k].link == rs[i].link
              && after[k].mime == rs[i].mime && after[k].size == rs[i].size && after[k].seconds == rs[i].seconds
    {
      LastMeta(db.tables, who, rs, i);
    }
    forall k | forall i :: 0 <= i < |rs| && k == Key(j, rs[i].id) ==> !Described(rs[i])
      ensures var after := RecordAll(db.tables, who, rs).metas;
              (k in after <==> k in db.tables.metas) && (k in db.tables.metas ==> after[k] == db.tables.metas[k])
    {
      OtherMeta(db.tables, who, rs, k);
    }
  }

  /** After it, an identifier downloaded with a file has one download row, kept if there was one, with the
      reporter and the size of the last such result; other download rows are as they were. */
  lemma ReportedDownloads(db: DB, w: nat, c: nat, next: int, rs: seq<Result>)
    requires Safe(db) && w in db.workers && HasLease(db, w, c)
    ensures var j, after := db.chunks[c].job, Apply(db, Report(w, c, next, rs)).tables;
            && (forall i :: 0 <= i < |rs| && LastFinished(rs, i) ==>
                  DownloadedAs(db.tables, after, Key(j, rs[i].id), w, if rs[i].size.Some? then rs[i].size.value else 0))
            && (forall d :: d in db.tables.downloads
                            && (forall i :: 0 <= i < |rs| && db.tables.downloads[d].item == Key(j, rs[i].id) ==> !Finished(rs[i])) ==>
                  d in after.downloads && after.downloads[d] == db.tables.downloads[d])
            && (forall d :: d in after.downloads && d !in db.tables.downloads ==>
                  exists i :: 0 <= i < |rs| && Finished(rs[i]) && after.downloads[d].item == Key(j, rs[i].id))
  {
    hide Safe, RecordAll, LastFinished, Finished, DownloadOf, Apply;
    SafeTables(db, c);
    ReportTables(db, w, c, next, rs);
    var j := db.chunks[c].job;
    var who := Reporter(j, db.jobs[j].group, w, db.workers[w].name);
    forall i | 0 <= i < |rs| && LastFinished(rs, i)
      ensures DownloadedAs(db.tables, RecordAll(db.tables, who, rs), Key(j, rs[i].id), w,
                           if rs[i].size.Some? then rs[i].size.value else 0)
    {
      var d := LastDownload(db.tables, who, rs, i);
    }
    forall d | d in db.tables.downloads
               && forall i :: 0 <= i < |rs| && db.tables.downloads[d].item == Key(j, rs[i].id) ==> !Finished(rs[i])
      ensures var after := RecordAll(db.tables, who, rs); d in after.downloads && after.downloads[d] == db.tables.downloads[d]
    {
      OtherDownload(db.tables, who, rs, d);
    }
    forall d | d in RecordAll(db.tables, who, rs).downloads && d !in db.tables.downloads
      ensures exists i :: 0 <= i < |rs| && Finished(rs[i]) && RecordAll(db.tables, who, rs).downloads[d].item == Key(j, rs[i].id)
    {
      OtherDownload(db.tables, who, rs, d);
    }
  }

  /** After it, each finished file is recorded; file rows that were there are as they were, and each new one has
      checksum and size of the first result about its identifier with that file, and the reporter's host. A
      finished identifier joins its job's group, and nothing else joins one. */
  lemma ReportedFiles(db: DB, w: nat, c: nat, next: int, rs: seq<Result>)
    requires Safe(db) && w in db.workers && HasLease(db, w, c) && db.chunks[c].job in db.jobs
    ensures var j := db.chunks[c].job;
            var who, after := Reporter(j, db.jobs[j].group, w, db.workers[w].name), Apply(db, Report(w, c, next, rs)).tables;
            && (forall f :: f in db.tables.files ==> f in after.files && after.files[f] == db.tables.files[f])
            && (forall f :: f in after.files && f !in db.tables.files ==>
                  exists i :: 0 <= i < |rs| && FirstFinished(rs, i) && FileFrom(after, who, f, rs[i]))
            && (forall i :: 0 <= i < |rs| && Finished(rs[i]) ==> Stored(after, who, rs[i]))
            && (forall g :: g in after.groups <==>
                  || g in db.tables.groups
                  || (db.jobs[j].group == Some(g.group)
                      && exists i :: 0 <= i < |rs| && Finished(rs[i]) && g.item == Key(j, rs[i].id)))
  {
    hide Safe, RecordAll, FirstFinished, Finished, FileFrom, Stored, Apply;
    SafeTables(db, c);
    ReportTables(db, w, c, next, rs);
    var j := db.chunks[c].job;
    var who := Reporter(j, db.jobs[j].group, w, db.workers[w].name);
    FilesAre(db.tables, who, rs);
    forall g ensures g in RecordAll(db.tables, who, rs).groups <==>
                       || g in db.tables.groups
                       || (db.jobs[j].group == Some(g.group)
                           && exists i :: 0 <= i < |rs| && Finished(rs[i]) && g.item == Key(j, rs[i].id))
    {
      GroupsAre(db.tables, who, rs, g);
    }
  }
}
