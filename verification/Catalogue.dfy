/** What the coordinator remembers about videos: item rows with their metadata, downloads, files and
    group links, and how one reported result is recorded in them. */
module Catalogue {
  import opened Rows

  /** Items are unique per (job, external id); the key stands for the row in the dependent tables. */
  datatype Key = Key(job: nat, id: int)

  datatype Item = Item(pk: nat, status: ItemStatus, worker: Option<nat>, error: Option<string>, attempts: nat)

  datatype Meta = Meta(
    title: Option<string>, link: Option<string>, mime: Option<string>, size: Option<int>, seconds: Option<int>)

  datatype Download = Download(item: Key, worker: Option<nat>, bytes: int)

  datatype FileKey = FileKey(download: nat, path: string)

  datatype FileRow = FileRow(checksum: Option<string>, size: Option<int>, host: string)

  datatype GroupLink = GroupLink(item: Key, group: nat)

  datatype Tables = Tables(
    items: map<Key, Item>,
    metas: map<Key, Meta>,
    downloads: map<nat, Download>,
    files: map<FileKey, FileRow>,
    groups: set<GroupLink>,
    nextItem: nat,
    nextDownload: nat)

  lemma LeastKeyExists(s: set<Key>, rank: Key -> int) returns (m: Key)
    requires s != {}
    ensures m in s && forall k :: k in s ==> rank(m) <= rank(k)
    decreases |s|
  {
    var y :| y in s;
    m := y;
    var rest := s - {y};
    if rest != {} {
      var k := LeastKeyExists(rest, rank);
      m := if rank(k) < rank(y) then k else y;
    }
    forall k | k in s ensures rank(m) <= rank(k) {
      assert k == y || k in rest;
    }
  }

  ghost function LeastKey(s: set<Key>, rank: Key -> int): (m: Key)
    requires s != {}
    ensures m in s && forall k :: k in s ==> rank(m) <= rank(k)
  {
    assert exists m :: m in s && forall k :: k in s ==> rank(m) <= rank(k) by {
      var m := LeastKeyExists(s, rank);
    }
    var m :| m in s && forall k :: k in s ==> rank(m) <= rank(k);
    m
  }

  /** The item rows of `s` as ORDER BY `rank` returns them. */
  ghost function OrderBy(s: set<Key>, rank: Key -> int): (ks: seq<Key>)
    ensures |ks| == |s|
    ensures forall k :: k in ks <==> k in s
    ensures forall i :: 0 <= i < |ks| ==> ks[i] in s
    ensures forall i, k :: 0 <= i < k < |ks| ==> ks[i] != ks[k] && rank(ks[i]) <= rank(ks[k])
    decreases |s|
  {
    if s == {} then []
    else
      var m := LeastKey(s, rank);
      [m] + OrderBy(s - {m}, rank)
  }

  /** One identifier's outcome as an agent reports it. */
  datatype Result = Result(
    id: int,
    status: ItemStatus,
    error: Option<string>,
    title: Option<string>,
    link: Option<string>,
    mime: Option<string>,
    size: Option<int>,
    seconds: Option<int>,
    path: Option<string>,
    checksum: Option<string>)

  /** Who reports, for which job: fixed while one report is recorded. */
  datatype Reporter = Reporter(job: nat, group: Option<nat>, worker: nat, host: string)
  {
    function KeyOf(r: Result): Key { Key(job, r.id) }
  }

  /** Python truthiness of an optional string. */
  predicate Truthy(s: Option<string>) {
    s.Some? && s.value != ""
  }

  predicate HasMeta(r: Result) {
    (r.status.Found? || r.status.Completed?) && (Truthy(r.title) || Truthy(r.link))
  }

  predicate HasFile(r: Result) {
    r.status.Completed? && Truthy(r.path)
  }

  function Upsert(t: Tables, k: Key, worker: nat, status: ItemStatus, error: Option<string>): (u: Tables)
    ensures u.metas == t.metas && u.downloads == t.downloads && u.files == t.files && u.groups == t.groups
            && u.nextDownload == t.nextDownload
  {
    if k in t.items then
      var row := t.items[k];
      t.(items := t.items[k := Item(row.pk, status, Some(worker), error, row.attempts + 1)])
    else
      t.(items := t.items[k := Item(t.nextItem, status, Some(worker), error, 1)], nextItem := t.nextItem + 1)
  }

  function PutMeta(t: Tables, k: Key, r: Result): (u: Tables)
    ensures u.items == t.items && u.nextItem == t.nextItem && u.downloads == t.downloads && u.files == t.files
            && u.groups == t.groups && u.nextDownload == t.nextDownload
  {
    if HasMeta(r) then t.(metas := t.metas[k := Meta(r.title, r.link, r.mime, r.size, r.seconds)]) else t
  }

  ghost function DownloadsOf(t: Tables, k: Key): set<nat> {
    set d | d in t.downloads && t.downloads[d].item == k
  }

  /** The download row of an item, or the id its first download row will get. */
  ghost function DownloadFor(t: Tables, k: Key): nat {
    if DownloadsOf(t, k) == {} then t.nextDownload else Least(DownloadsOf(t, k))
  }

  ghost function PutDownload(t: Tables, k: Key, who: Reporter, r: Result): (u: Tables)
    ensures u.items == t.items && u.metas == t.metas && u.nextItem == t.nextItem && u.files == t.files
            && u.groups == t.groups
  {
    var d := DownloadFor(t, k);
    var bytes := if r.size.Some? then r.size.value else 0;
    t.(downloads := t.downloads[d := Download(k, Some(who.worker), bytes)],
       nextDownload := if DownloadsOf(t, k) == {} then t.nextDownload + 1 else t.nextDownload)
  }

  ghost function PutFile(t: Tables, k: Key, who: Reporter, r: Result): (u: Tables)
    requires r.path.Some?
    ensures u.items == t.items && u.metas == t.metas && u.nextItem == t.nextItem && u.downloads == t.downloads
            && u.nextDownload == t.nextDownload && u.groups == t.groups
  {
    var f := FileKey(DownloadFor(t, k), r.path.value);
    if f in t.files then t else t.(files := t.files[f := FileRow(r.checksum, r.size, who.host)])
  }

  ghost function PutGroup(t: Tables, k: Key, group: Option<nat>): (u: Tables)
    ensures u.items == t.items && u.metas == t.metas && u.nextItem == t.nextItem && u.downloads == t.downloads
            && u.nextDownload == t.nextDownload && u.files == t.files
  {
    if group.Some? then t.(groups := t.groups + {GroupLink(k, group.value)}) else t
  }

  ghost function PutFinished(t: Tables, who: Reporter, r: Result): (u: Tables)
    ensures u.items == t.items && u.metas == t.metas && u.nextItem == t.nextItem
  {
    if HasFile(r) then
      var k := who.KeyOf(r);
      PutGroup(PutFile(PutDownload(t, k, who, r), k, who, r), k, who.group)
    else t
  }

  /** Record one result: the item row, then its metadata, then where the finished file lives. */
  ghost function Record(t: Tables, who: Reporter, r: Result): Tables {
    var k := who.KeyOf(r);
    PutFinished(PutMeta(Upsert(t, k, who.worker, r.status, r.error), k, r), who, r)
  }

  ghost function RecordAll(t: Tables, who: Reporter, rs: seq<Result>): Tables {
    if rs == [] then t
    else Record(RecordAll(t, who, rs[..|rs| - 1]), who, rs[|rs| - 1])
  }

  // ---- Deleting rows -------------------------------------------------------------------------

  /** Delete items with everything that hangs on them (ON DELETE CASCADE). */
  ghost function DropItems(t: Tables, gone: set<Key>): Tables {
    t.(items := map k | k in t.items && k !in gone :: t.items[k],
       metas := map k | k in t.metas && k !in gone :: t.metas[k],
       downloads := map d | d in t.downloads && t.downloads[d].item !in gone :: t.downloads[d],
       files := map f | f in t.files && !(f.download in t.downloads && t.downloads[f.download].item in gone) :: t.files[f],
       groups := set g | g in t.groups && g.item !in gone)
  }

  function Unset(owner: Option<nat>, w: nat): Option<nat> {
    if owner == Some(w) then None else owner
  }

  /** Forget a deleted worker (ON DELETE SET NULL). */
  function Detach(t: Tables, w: nat): Tables {
    t.(items := map k | k in t.items :: t.items[k].(worker := Unset(t.items[k].worker, w)),
       downloads := map d | d in t.downloads :: t.downloads[d].(worker := Unset(t.downloads[d].worker, w)))
  }

  // ---- What recording keeps ------------------------------------------------------------------

  /** At most one download row per item, and fresh ids are unused. */
  ghost predicate OneDownload(t: Tables) {
    && (forall d :: d in t.downloads ==> d < t.nextDownload)
    && (forall d, e :: d in t.downloads && e in t.downloads && t.downloads[d].item == t.downloads[e].item ==> d == e)
  }

  /** `u` extends `t`: no row disappears, an item keeps its primary key, a download stays with its
      item, a recorded file is never rewritten. */
  ghost predicate Extends(t: Tables, u: Tables) {
    && (forall k :: k in t.items ==> k in u.items && u.items[k].pk == t.items[k].pk)
    && (forall k :: k in t.metas ==> k in u.metas)
    && (forall d :: d in t.downloads ==> d in u.downloads && u.downloads[d].item == t.downloads[d].item)
    && (forall f :: f in t.files ==> f in u.files && u.files[f] == t.files[f])
    && t.groups <= u.groups
  }

  lemma DownloadForKnown(t: Tables, k: Key, d: nat)
    requires OneDownload(t) && d in t.downloads && t.downloads[d].item == k
    ensures DownloadFor(t, k) == d && DownloadsOf(t, k) != {}
  {
    assert d in DownloadsOf(t, k);
  }

  lemma DownloadForIs(t: Tables, k: Key)
    requires OneDownload(t)
    ensures DownloadsOf(t, k) != {} ==> DownloadFor(t, k) in t.downloads && t.downloads[DownloadFor(t, k)].item == k
    ensures DownloadsOf(t, k) == {} ==> forall d :: d in t.downloads ==> t.downloads[d].item != k
  {
    forall d | d in t.downloads && t.downloads[d].item == k ensures DownloadsOf(t, k) != {} {
      assert d in DownloadsOf(t, k);
    }
  }

  lemma PutDownloadKeeps(t: Tables, k: Key, who: Reporter, r: Result)
    requires OneDownload(t)
    ensures var u := PutDownload(t, k, who, r);
            OneDownload(u) && Extends(t, u) && DownloadFor(u, k) == DownloadFor(t, k)
  {
    DownloadForIs(t, k);
    var u := PutDownload(t, k, who, r);
    DownloadForKnown(u, k, DownloadFor(t, k));
  }

  lemma ExtendsTransitive(t: Tables, u: Tables, v: Tables)
    requires Extends(t, u) && Extends(u, v)
    ensures Extends(t, v)
  {
  }

  lemma UpsertKeeps(t: Tables, k: Key, worker: nat, r: Result)
    requires OneDownload(t)
    ensures var u := PutMeta(Upsert(t, k, worker, r.status, r.error), k, r);
            OneDownload(u) && Extends(t, u)
  {
  }

  lemma PutFileKeeps(t: Tables, k: Key, who: Reporter, r: Result)
    requires OneDownload(t) && r.path.Some?
    ensures var u := PutGroup(PutFile(t, k, who, r), k, who.group);
            OneDownload(u) && Extends(t, u)
  {
  }

  /** Recording one result keeps one download per item and only adds rows. */
  lemma RecordKeeps(t: Tables, who: Reporter, r: Result)
    requires OneDownload(t)
    ensures OneDownload(Record(t, who, r)) && Extends(t, Record(t, who, r))
  {
    var k := who.KeyOf(r);
    var a := PutMeta(Upsert(t, k, who.worker, r.status, r.error), k, r);
    UpsertKeeps(t, k, who.worker, r);
    if HasFile(r) {
      PutDownloadKeeps(a, k, who, r);
      var b := PutDownload(a, k, who, r);
      PutFileKeeps(b, k, who, r);
      var c := PutGroup(PutFile(b, k, who, r), k, who.group);
      ExtendsTransitive(a, b, c);
      ExtendsTransitive(t, a, c);
    }
  }

  lemma {:induction false} RecordAllKeeps(t: Tables, who: Reporter, rs: seq<Result>)
    requires OneDownload(t)
    ensures OneDownload(RecordAll(t, who, rs)) && Extends(t, RecordAll(t, who, rs))
  {
    if rs != [] {
      RecordAllKeeps(t, who, rs[..|rs| - 1]);
      RecordKeeps(RecordAll(t, who, rs[..|rs| - 1]), who, rs[|rs| - 1]);
    }
  }

  /** An item row after recording: untouched, or the outcome of some result about it. */
  ghost predicate FromResult(rs: seq<Result>, who: Reporter, k: Key, row: Item) {
    exists i :: 0 <= i < |rs| && who.KeyOf(rs[i]) == k && row.status == rs[i].status && row.worker == Some(who.worker)
  }

  lemma LastResult(before: Tables, who: Reporter, rs: seq<Result>, k: Key)
    requires rs != [] && who.KeyOf(rs[|rs| - 1]) == k
    ensures var r := rs[|rs| - 1];
            FromResult(rs, who, k, Upsert(before, k, who.worker, r.status, r.error).items[k])
  {
    assert who.KeyOf(rs[|rs| - 1]) == k;
  }

  lemma FromPrefix(rs: seq<Result>, r: Result, who: Reporter, k: Key, row: Item)
    requires FromResult(rs, who, k, row)
    ensures FromResult(rs + [r], who, k, row)
  {
    var i :| 0 <= i < |rs| && who.KeyOf(rs[i]) == k && row.status == rs[i].status;
    assert (rs + [r])[i] == rs[i];
  }

  /** Recording writes exactly the items the report mentions: each ends with the outcome of one of its
      results, held by the reporter; every other row stays. */
  lemma {:induction false} RecordAllItems(t: Tables, who: Reporter, rs: seq<Result>)
    ensures forall k :: k in RecordAll(t, who, rs).items <==> k in t.items || Mentions(rs, who, k)
    ensures forall k :: k in RecordAll(t, who, rs).items ==>
              if Mentions(rs, who, k) then FromResult(rs, who, k, RecordAll(t, who, rs).items[k])
              else RecordAll(t, who, rs).items[k] == t.items[k]
  {
    if rs != [] {
      var n := |rs| - 1;
      var r := rs[n];
      var k0 := who.KeyOf(r);
      var before := RecordAll(t, who, rs[..n]);
      RecordAllItems(t, who, rs[..n]);
      RecordShape(before, who, r);
      hide Record, FromResult, PutMeta;
      assert rs == rs[..n] + [r];
      assert Mentions(rs, who, k0);
      forall k | k in RecordAll(t, who, rs).items
        ensures k in t.items || Mentions(rs, who, k)
        ensures if Mentions(rs, who, k) then FromResult(rs, who, k, RecordAll(t, who, rs).items[k])
                else RecordAll(t, who, rs).items[k] == t.items[k]
      {
        MentionsPrefix(rs[..n], r, who, k);
        if k == k0 {
          LastResult(before, who, rs, k);
        } else if Mentions(rs[..n], who, k) {
          FromPrefix(rs[..n], r, who, k, before.items[k]);
        }
      }
      forall k | Mentions(rs, who, k) ensures k in RecordAll(t, who, rs).items {
        MentionsPrefix(rs[..n], r, who, k);
      }
    }
  }

  // ---- Recording a report twice equals recording it once --------------------------------------

  /** The same row but for how often it was tried. */
  predicate SameRow(x: Item, y: Item) {
    x.(attempts := 0) == y.(attempts := 0)
  }

  /** Equal tables, attempts aside. */
  ghost predicate SameTables(t: Tables, u: Tables) {
    && t.items.Keys == u.items.Keys
    && (forall k :: k in t.items ==> SameRow(t.items[k], u.items[k]))
    && t.metas == u.metas && t.downloads == u.downloads && t.files == u.files && t.groups == u.groups
    && t.nextItem == u.nextItem && t.nextDownload == u.nextDownload
  }

  ghost predicate Mentions(rs: seq<Result>, who: Reporter, k: Key) {
    exists i :: 0 <= i < |rs| && who.KeyOf(rs[i]) == k
  }

  ghost predicate MentionsMeta(rs: seq<Result>, who: Reporter, k: Key) {
    exists i :: 0 <= i < |rs| && who.KeyOf(rs[i]) == k && HasMeta(rs[i])
  }

  ghost predicate MentionsFile(rs: seq<Result>, who: Reporter, k: Key) {
    exists i :: 0 <= i < |rs| && who.KeyOf(rs[i]) == k && HasFile(rs[i])
  }

  /** Replaying the prefix `rs` over the finished tables `z` gives `b`; recording it the first time gave `a`.
      Rows the prefix wrote agree with `a`, all others still are those of `z`. */
  ghost predicate ItemsReplayed(a: Tables, b: Tables, z: Tables, rs: seq<Result>, who: Reporter) {
    && b.nextItem == z.nextItem && b.items.Keys == z.items.Keys
    && (forall k :: k in b.items ==>
          if Mentions(rs, who, k) then k in a.items && SameRow(b.items[k], a.items[k]) else b.items[k] == z.items[k])
  }

  ghost predicate MetasReplayed(a: Tables, b: Tables, z: Tables, rs: seq<Result>, who: Reporter) {
    && b.metas.Keys == z.metas.Keys
    && (forall k :: k in b.metas ==>
          if MentionsMeta(rs, who, k) then k in a.metas && b.metas[k] == a.metas[k] else b.metas[k] == z.metas[k])
  }

  ghost predicate FilesReplayed(a: Tables, b: Tables, z: Tables, rs: seq<Result>, who: Reporter) {
    && b.files == z.files && b.groups == z.groups
    && b.nextDownload == z.nextDownload && b.downloads.Keys == z.downloads.Keys
    && (forall d :: d in b.downloads ==> b.downloads[d].item == z.downloads[d].item)
    && (forall d :: d in b.downloads ==>
          if MentionsFile(rs, who, b.downloads[d].item)
          then d in a.downloads && b.downloads[d] == a.downloads[d] else b.downloads[d] == z.downloads[d])
  }

  /** Which part of the tables each part of recording touches. */
  lemma RecordShape(t: Tables, who: Reporter, r: Result)
    ensures var u, k := Record(t, who, r), who.KeyOf(r);
            && u.items == Upsert(t, k, who.worker, r.status, r.error).items
            && u.nextItem == Upsert(t, k, who.worker, r.status, r.error).nextItem
            && u.metas == PutMeta(t, k, r).metas
  {
    var k := who.KeyOf(r);
    var a := PutMeta(Upsert(t, k, who.worker, r.status, r.error), k, r);
  }

  lemma ReplayItem(a: Tables, a': Tables, b: Tables, b': Tables, z: Tables, rs: seq<Result>,
                   r: Result, who: Reporter)
    requires ItemsReplayed(a, b, z, rs, who)
    requires a' == Upsert(a, who.KeyOf(r), who.worker, r.status, r.error)
    requires b' == Upsert(b, who.KeyOf(r), who.worker, r.status, r.error)
    requires forall k :: k in a'.items ==> k in z.items && z.items[k].pk == a'.items[k].pk
    ensures ItemsReplayed(a', b', z, rs + [r], who)
  {
    var k := who.KeyOf(r);
    var rs' := rs + [r];
    assert k in a'.items;
    assert rs'[|rs|] == r;
    assert Mentions(rs', who, k);
    forall q | q in b'.items
      ensures if Mentions(rs', who, q) then q in a'.items && SameRow(b'.items[q], a'.items[q])
              else b'.items[q] == z.items[q]
    {
      MentionsPrefix(rs, r, who, q);
    }
  }

  /** Appending a result about another item changes nothing for `k`. */
  lemma MentionsPrefix(rs: seq<Result>, r: Result, who: Reporter, k: Key)
    ensures who.KeyOf(r) != k ==> (Mentions(rs + [r], who, k) <==> Mentions(rs, who, k))
    ensures who.KeyOf(r) != k || !HasMeta(r) ==> (MentionsMeta(rs + [r], who, k) <==> MentionsMeta(rs, who, k))
    ensures who.KeyOf(r) != k || !HasFile(r) ==> (MentionsFile(rs + [r], who, k) <==> MentionsFile(rs, who, k))
  {
    var s := rs + [r];
    forall i | 0 <= i < |rs| ensures s[i] == rs[i] {}
    if Mentions(rs, who, k) {
      var i :| 0 <= i < |rs| && who.KeyOf(rs[i]) == k;
      assert who.KeyOf(s[i]) == k;
    }
    if MentionsMeta(rs, who, k) {
      var i :| 0 <= i < |rs| && who.KeyOf(rs[i]) == k && HasMeta(rs[i]);
      assert who.KeyOf(s[i]) == k && HasMeta(s[i]);
    }
    if MentionsFile(rs, who, k) {
      var i :| 0 <= i < |rs| && who.KeyOf(rs[i]) == k && HasFile(rs[i]);
      assert who.KeyOf(s[i]) == k && HasFile(s[i]);
    }
  }

  lemma ReplayMeta(a: Tables, a': Tables, b: Tables, b': Tables, z: Tables, rs: seq<Result>,
                   r: Result, who: Reporter)
    requires MetasReplayed(a, b, z, rs, who)
    requires a' == PutMeta(a, who.KeyOf(r), r) && b' == PutMeta(b, who.KeyOf(r), r)
    requires forall k :: k in a'.metas ==> k in z.metas
    ensures MetasReplayed(a', b', z, rs + [r], who)
  {
    var k := who.KeyOf(r);
    var rs' := rs + [r];
    assert rs'[|rs|] == r;
    if HasMeta(r) {
      assert k in a'.metas;
      assert MentionsMeta(rs', who, k);
    }
    forall q | q in b'.metas
      ensures if MentionsMeta(rs', who, q) then q in a'.metas && b'.metas[q] == a'.metas[q] else b'.metas[q] == z.metas[q]
    {
      MentionsPrefix(rs, r, who, q);
    }
  }

  /** A file row is written once per (download, path). */
  function WithFile(files: map<FileKey, FileRow>, f: FileKey, row: FileRow): map<FileKey, FileRow> {
    if f in files then files else files[f := row]
  }

  function DownloadRow(who: Reporter, r: Result): Download {
    Download(who.KeyOf(r), Some(who.worker), if r.size.Some? then r.size.value else 0)
  }

  /** What a finished file adds: its download row, its file row unless it exists, its group link. */
  ghost predicate Filed(t: Tables, u: Tables, d: nat, who: Reporter, r: Result) {
    && u.downloads == t.downloads[d := DownloadRow(who, r)]
    && u.nextDownload == (if d in t.downloads then t.nextDownload else t.nextDownload + 1)
    && r.path.Some?
    && u.files == WithFile(t.files, FileKey(d, r.path.value), FileRow(r.checksum, r.size, who.host))
    && u.groups == (if who.group.Some? then t.groups + {GroupLink(who.KeyOf(r), who.group.value)} else t.groups)
  }

  lemma FinishedShape(t: Tables, who: Reporter, r: Result)
    requires OneDownload(t)
    ensures var u := Record(t, who, r);
            var d := DownloadFor(t, who.KeyOf(r));
            if HasFile(r) then Filed(t, u, d, who, r)
            else
              u.downloads == t.downloads && u.nextDownload == t.nextDownload && u.files == t.files && u.groups == t.groups
  {
    var k := who.KeyOf(r);
    var a := PutMeta(Upsert(t, k, who.worker, r.status, r.error), k, r);
    assert a.downloads == t.downloads && a.files == t.files && a.groups == t.groups;
    assert DownloadsOf(a, k) == DownloadsOf(t, k);
    DownloadForIs(t, k);
    if HasFile(r) {
      PutDownloadKeeps(a, k, who, r);
      var b := PutDownload(a, k, who, r);
      assert b.files == t.files && b.groups == t.groups;
    }
  }

  /** The file and the group link of the result are there already. */
  lemma ReplayLinks(a: Tables, a': Tables, b: Tables, b': Tables, z: Tables, d: nat, r: Result, who: Reporter)
    requires Filed(a, a', d, who, r) && Filed(b, b', d, who, r) && Extends(a', z)
    requires b.files == z.files && b.groups == z.groups
    ensures b'.files == z.files && b'.groups == z.groups
  {
    assert FileKey(d, r.path.value) in a'.files;
    if who.group.Some? {
      assert GroupLink(who.KeyOf(r), who.group.value) in a'.groups;
      assert b.groups + {GroupLink(who.KeyOf(r), who.group.value)} == b.groups;
    }
  }

  /** The download rows after the replayed result. */
  lemma ReplayDownloads(a: Tables, a': Tables, b: Tables, b': Tables, z: Tables, d: nat, rs: seq<Result>, r: Result,
                        who: Reporter, e: nat)
    requires FilesReplayed(a, b, z, rs, who) && HasFile(r) && e in b'.downloads && e in z.downloads
    requires Filed(a, a', d, who, r) && Filed(b, b', d, who, r)
    requires d in z.downloads && z.downloads[d].item == who.KeyOf(r) && OneDownload(z)
    ensures b'.downloads[e].item == z.downloads[e].item
    ensures if MentionsFile(rs + [r], who, b'.downloads[e].item)
            then e in a'.downloads && b'.downloads[e] == a'.downloads[e] else b'.downloads[e] == z.downloads[e]
  {
    hide WithFile, Mentions;
    assert (rs + [r])[|rs|] == r;
    assert MentionsFile(rs + [r], who, who.KeyOf(r));
    MentionsPrefix(rs, r, who, b'.downloads[e].item);
  }

  lemma ReplayFile(a: Tables, a': Tables, b: Tables, b': Tables, z: Tables, d: nat,
                   rs: seq<Result>, r: Result, who: Reporter)
    requires FilesReplayed(a, b, z, rs, who) && HasFile(r)
    requires Filed(a, a', d, who, r) && Filed(b, b', d, who, r)
    requires Extends(a', z) && OneDownload(z)
    ensures FilesReplayed(a', b', z, rs + [r], who)
  {
    hide WithFile, MentionsFile;
    ReplayLinks(a, a', b, b', z, d, r, who);
    assert d in a'.downloads;
    assert d in z.downloads && z.downloads[d].item == who.KeyOf(r);
    assert b'.downloads.Keys == b.downloads.Keys;
    forall e | e in b'.downloads
      ensures b'.downloads[e].item == z.downloads[e].item
      ensures if MentionsFile(rs + [r], who, b'.downloads[e].item)
              then e in a'.downloads && b'.downloads[e] == a'.downloads[e] else b'.downloads[e] == z.downloads[e]
    {
      ReplayDownloads(a, a', b, b', z, d, rs, r, who, e);
    }
  }

  lemma ReplayNoFile(a: Tables, a': Tables, b: Tables, b': Tables, z: Tables, rs: seq<Result>,
                     r: Result, who: Reporter)
    requires FilesReplayed(a, b, z, rs, who) && !HasFile(r)
    requires a'.downloads == a.downloads
    requires b'.downloads == b.downloads && b'.nextDownload == b.nextDownload && b'.files == b.files && b'.groups == b.groups
    ensures FilesReplayed(a', b', z, rs + [r], who)
  {
    forall e | e in b'.downloads
      ensures if MentionsFile(rs + [r], who, b'.downloads[e].item)
              then e in a'.downloads && b'.downloads[e] == a'.downloads[e] else b'.downloads[e] == z.downloads[e]
    {
      MentionsPrefix(rs, r, who, b'.downloads[e].item);
    }
  }

  ghost predicate Replayed(a: Tables, b: Tables, z: Tables, rs: seq<Result>, who: Reporter) {
    ItemsReplayed(a, b, z, rs, who) && MetasReplayed(a, b, z, rs, who) && FilesReplayed(a, b, z, rs, who)
  }

  /** The replayed result finds the download row it wrote the first time. */
  lemma FoundAgain(a: Tables, a': Tables, b: Tables, z: Tables, d: nat, r: Result, who: Reporter)
    requires Filed(a, a', d, who, r) && Extends(a', z) && OneDownload(b)
    requires b.downloads.Keys == z.downloads.Keys
    requires forall e :: e in b.downloads ==> b.downloads[e].item == z.downloads[e].item
    ensures DownloadFor(b, who.KeyOf(r)) == d
  {
    hide WithFile;
    assert d in a'.downloads && a'.downloads[d].item == who.KeyOf(r);
    assert d in z.downloads.Keys;
    DownloadForKnown(b, who.KeyOf(r), d);
  }

  lemma ReplayFiles(a: Tables, b: Tables, z: Tables, rs: seq<Result>, r: Result, who: Reporter)
    requires OneDownload(a) && OneDownload(b) && OneDownload(z)
    requires FilesReplayed(a, b, z, rs, who) && Extends(Record(a, who, r), z)
    ensures FilesReplayed(Record(a, who, r), Record(b, who, r), z, rs + [r], who)
  {
    hide Record, Filed, OneDownload, Extends, MentionsFile;
    var a', b' := Record(a, who, r), Record(b, who, r);
    FinishedShape(a, who, r);
    FinishedShape(b, who, r);
    if HasFile(r) {
      var d := DownloadFor(a, who.KeyOf(r));
      FoundAgain(a, a', b, z, d, r, who);
      ReplayFile(a, a', b, b', z, d, rs, r, who);
    } else {
      ReplayNoFile(a, a', b, b', z, rs, r, who);
    }
  }

  lemma ReplayRows(a: Tables, b: Tables, z: Tables, rs: seq<Result>, r: Result, who: Reporter)
    requires ItemsReplayed(a, b, z, rs, who) && MetasReplayed(a, b, z, rs, who)
    requires Extends(Record(a, who, r), z)
    ensures ItemsReplayed(Record(a, who, r), Record(b, who, r), z, rs + [r], who)
    ensures MetasReplayed(Record(a, who, r), Record(b, who, r), z, rs + [r], who)
  {
    hide Record, Mentions, MentionsMeta;
    var k := who.KeyOf(r);
    RecordShape(a, who, r);
    RecordShape(b, who, r);
    ReplayItem(a, Upsert(a, k, who.worker, r.status, r.error), b, Upsert(b, k, who.worker, r.status, r.error), z, rs, r, who);
    ReplayMeta(a, PutMeta(a, k, r), b, PutMeta(b, k, r), z, rs, r, who);
  }

  lemma ReplayStep(a: Tables, b: Tables, z: Tables, rs: seq<Result>, r: Result, who: Reporter)
    requires OneDownload(a) && OneDownload(b) && OneDownload(z)
    requires Replayed(a, b, z, rs, who)
    requires Extends(Record(a, who, r), z)
    ensures Replayed(Record(a, who, r), Record(b, who, r), z, rs + [r], who)
  {
    hide Record, ItemsReplayed, MetasReplayed, FilesReplayed, OneDownload, Extends;
    ReplayRows(a, b, z, rs, r, who);
    ReplayFiles(a, b, z, rs, r, who);
  }

  lemma {:induction false} Replay(t: Tables, who: Reporter, rs: seq<Result>, n: nat)
    requires OneDownload(t) && n <= |rs|
    ensures var a, z := RecordAll(t, who, rs[..n]), RecordAll(t, who, rs);
            var b := RecordAll(z, who, rs[..n]);
            Extends(a, z) && Replayed(a, b, z, rs[..n], who)
  {
    var z := RecordAll(t, who, rs);
    PrefixExtends(t, who, rs, n);
    if n > 0 {
      var before := rs[..n - 1];
      var a, b := RecordAll(t, who, before), RecordAll(z, who, before);
      assert rs[..n][..n - 1] == before;
      assert rs[..n] == before + [rs[n - 1]];
      Replay(t, who, rs, n - 1);
      RecordAllKeeps(t, who, before);
      RecordAllKeeps(t, who, rs);
      RecordAllKeeps(z, who, before);
      ReplayStep(a, b, z, before, rs[n - 1], who);
    }
  }

  lemma {:induction false} PrefixExtends(t: Tables, who: Reporter, rs: seq<Result>, n: nat)
    requires OneDownload(t) && n <= |rs|
    ensures Extends(RecordAll(t, who, rs[..n]), RecordAll(t, who, rs))
    decreases |rs| - n
  {
    if n == |rs| {
      assert rs[..n] == rs;
    } else {
      PrefixExtends(t, who, rs, n + 1);
      var a := RecordAll(t, who, rs[..n]);
      assert rs[..n + 1][..n] == rs[..n];
      RecordAllKeeps(t, who, rs[..n]);
      RecordKeeps(a, who, rs[n]);
      ExtendsTransitive(a, RecordAll(t, who, rs[..n + 1]), RecordAll(t, who, rs));
    }
  }

  /** Recording a report a second time changes nothing but the attempt counters, whatever the list
      holds, repeated identifiers included. */
  lemma {:induction false} RecordTwice(t: Tables, who: Reporter, rs: seq<Result>)
    requires OneDownload(t)
    ensures SameTables(RecordAll(RecordAll(t, who, rs), who, rs), RecordAll(t, who, rs))
    ensures OneDownload(RecordAll(t, who, rs))
  {
    Replay(t, who, rs, |rs|);
    RecordAllKeeps(t, who, rs);
    assert rs[..|rs|] == rs;
    var z := RecordAll(t, who, rs);
    var b := RecordAll(z, who, rs);
    assert b.metas == z.metas;
    assert b.downloads == z.downloads;
  }
}
