/** The drain check compares external identifiers across all sources. It therefore keeps a copy of every
    identifier, but a video of one source can be taken for a copy of another's: exactly when that loses one. */
module SourceBlindness {
  import opened Rows
  import opened Catalogue
  import opened Database
  import opened DrainSpec
  import opened LeaseSafety
  import opened DrainSafety
  import opened DrainPlan

  /** A completed copy, on an existing server, of the video `id` of one source. */
  ghost predicate IsCopyOf(db: DB, k: Key, source: string, id: int) {
    IsCopy(db, k, id) && k.job in db.jobs && db.jobs[k.job].source == source
  }

  ghost predicate HasCopyOf(db: DB, source: string, id: int) {
    exists k :: IsCopyOf(db, k, source, id)
  }

  /** Every video of every source that had a copy still has one. */
  ghost predicate EveryVideoKept(db: DB, after: DB) {
    forall source, id :: HasCopyOf(db, source, id) ==> HasCopyOf(after, source, id)
  }

  // ---- What removing servers does to the copies --------------------------------------------------

  predicate OnOneOf(row: Item, gone: set<nat>) {
    row.worker.Some? && row.worker.value in gone
  }

  /** The servers in `gone` and the items completed on them are gone; jobs keep their sources. */
  ghost predicate Removed(db: DB, after: DB, gone: set<nat>) {
    && (forall k :: k in after.tables.items <==>
          k in db.tables.items && !(db.tables.items[k].status.Completed? && OnOneOf(db.tables.items[k], gone)))
    && (forall k :: k in after.tables.items ==>
          && after.tables.items[k].status == db.tables.items[k].status
          && after.tables.items[k].worker
             == if OnOneOf(db.tables.items[k], gone) then None else db.tables.items[k].worker)
    && (forall v :: v in after.workers <==> v in db.workers && v !in gone)
    && (forall j :: j in after.jobs <==> j in db.jobs)
    && (forall j :: j in db.jobs ==> after.jobs[j].source == db.jobs[j].source)
  }

  /** Each video with a copy has one of its source outside `gone`. */
  ghost predicate CopiesOutside(db: DB, gone: set<nat>) {
    forall source, id :: HasCopyOf(db, source, id) ==> CopyOutside(db, gone, source, id)
  }

  ghost predicate CopyOutside(db: DB, gone: set<nat>, source: string, id: int) {
    exists k :: IsCopyOutside(db, gone, k, source, id)
  }

  ghost predicate IsCopyOutside(db: DB, gone: set<nat>, k: Key, source: string, id: int) {
    IsCopyOf(db, k, source, id) && !OnOneOf(db.tables.items[k], gone)
  }

  /** A completed copy survives exactly when it is on none of the removed servers. */
  lemma CopySurvives(db: DB, after: DB, gone: set<nat>, k: Key, source: string, id: int)
    requires Removed(db, after, gone)
    ensures IsCopyOf(after, k, source, id) <==> IsCopyOutside(db, gone, k, source, id)
  {
  }

  lemma KeptExactly(db: DB, after: DB, gone: set<nat>)
    requires Removed(db, after, gone)
    ensures EveryVideoKept(db, after) <==> CopiesOutside(db, gone)
  {
    hide Removed, IsCopyOf, IsCopyOutside;
    forall source, id ensures HasCopyOf(after, source, id) <==> CopyOutside(db, gone, source, id) {
      forall k ensures IsCopyOf(after, k, source, id) <==> IsCopyOutside(db, gone, k, source, id) {
        CopySurvives(db, after, gone, k, source, id);
      }
    }
  }

  lemma PurgeRemoves(db: DB, w: nat)
    ensures Removed(db, Purge(db, w), {w})
  {
    PurgeMeans(db, w);
  }

  lemma RemovedJoins(a: DB, b: DB, c: DB, g: set<nat>, h: set<nat>)
    requires Removed(a, b, g) && Removed(b, c, h)
    ensures Removed(a, c, g + h)
  {
  }

  // ---- One server --------------------------------------------------------------------------------

  /** Some other server has the same video of the same source. */
  ghost predicate SameVideoElsewhere(db: DB, w: nat, k: Key)
    requires k.job in db.jobs
  {
    exists q :: IsCopyOf(db, q, db.jobs[k.job].source, k.id) && db.tables.items[q].worker != Some(w)
  }

  ghost predicate AllElsewhere(db: DB, w: nat) {
    forall k :: CompletedOn(db.tables, w, k) && k.job in db.jobs ==> SameVideoElsewhere(db, w, k)
  }

  lemma ElsewhereIsOutside(db: DB, w: nat)
    requires w in db.workers
    ensures AllElsewhere(db, w) <==> CopiesOutside(db, {w})
  {
    if AllElsewhere(db, w) {
      forall source, id | HasCopyOf(db, source, id) ensures CopyOutside(db, {w}, source, id) {
        var k :| IsCopyOf(db, k, source, id);
        if CompletedOn(db.tables, w, k) {
          assert SameVideoElsewhere(db, w, k);
          var q :| IsCopyOf(db, q, source, id) && db.tables.items[q].worker != Some(w);
          assert IsCopyOutside(db, {w}, q, source, id);
        } else {
          assert IsCopyOutside(db, {w}, k, source, id);
        }
      }
    }
    if CopiesOutside(db, {w}) {
      forall k | CompletedOn(db.tables, w, k) && k.job in db.jobs ensures SameVideoElsewhere(db, w, k) {
        var source := db.jobs[k.job].source;
        assert IsCopyOf(db, k, source, k.id);
        assert CopyOutside(db, {w}, source, k.id);
        var q :| IsCopyOutside(db, {w}, q, source, k.id);
      }
    }
  }

  /** Removing a server the check let through loses no video of any source exactly when each of its
      completed items has a copy of the same source elsewhere. */
  lemma FinalizeKeepsSourcesWhen(db: DB, w: nat)
    requires w in db.workers && Unmigrated(db.tables, w) == {}
    ensures EveryVideoKept(db, FinalizeOne(db, {}, w)) <==> AllElsewhere(db, w)
  {
    hide Purge, Removed, EveryVideoKept, CopiesOutside, AllElsewhere;
    PurgeRemoves(db, w);
    KeptExactly(db, Purge(db, w), {w});
    ElsewhereIsOutside(db, w);
  }

  // ---- Redistribution ----------------------------------------------------------------------------

  /** With nothing exclusive to the server, starting its drain queues nothing. */
  lemma NothingToMove(db: DB, w: nat)
    requires w in db.workers && Unmigrated(db.tables, w) == {}
    ensures StartDrain(db, w) == Some(SetDraining(db, w))
  {
    hide SetDraining;
    assert PendingKeys(db, w) == [];
    assert TransferJobs(db, [], []) == Some(db);
  }

  lemma {:induction false} TransfersKeepJobs(db: DB, ts: seq<Transfer>, sources: seq<string>)
    requires Safe(db)
    ensures TransferJobs(db, ts, sources).Some? ==>
              forall j :: j in db.jobs ==>
                j in TransferJobs(db, ts, sources).value.jobs && TransferJobs(db, ts, sources).value.jobs[j] == db.jobs[j]
  {
    hide Safe, AddRunning;
    if sources != [] {
      var n := |sources| - 1;
      TransfersKeepJobs(db, ts, sources[..n]);
      TransferJobsSafe(db, ts, sources[..n]);
      var before := TransferJobs(db, ts, sources[..n]);
      if before.Some? {
        var job := NewJob(sources[n], TargetsOf(EntriesOf(ts, sources[n])));
        SafeIsLinked(before.value);
        if AddRunning(before.value, job).Some? { AddRunningAdds(before.value, job); }
      }
    }
  }

  lemma SafeIsLinked(db: DB)
    requires Safe(db)
    ensures Linked(db)
  {
  }

  /** Starting a drain removes nothing. */
  lemma DrainingKeeps(db: DB, w: nat)
    requires Safe(db) && w in db.workers && StartDrain(db, w).Some?
    ensures EveryVideoKept(db, StartDrain(db, w).value)
  {
    hide Safe, Plan, TransferJobs;
    var after := StartDrain(db, w).value;
    TransfersKeepJobs(db, Plan(db, w), Sources(Plan(db, w)));
    forall source, id | HasCopyOf(db, source, id) ensures HasCopyOf(after, source, id) {
      var k :| IsCopyOf(db, k, source, id);
      assert IsCopyOf(after, k, source, id);
    }
  }

  lemma MarkedThenPurged(db: DB, w: nat)
    requires w in db.workers
    ensures Removed(db, Purge(SetDraining(db, w), w), {w})
  {
    hide Purge;
    PurgeRemoves(SetDraining(db, w), w);
  }

  /** What redistribution does, in the two cases the program has. */
  lemma RedistributeIs(db: DB, w: nat)
    requires Safe(db) && w in db.workers
    ensures db.workers[w].state.Draining? || !OtherOnline(db, w) ==> Redistribute(db, w) == db
    ensures !(db.workers[w].state.Draining? || !OtherOnline(db, w)) && Unmigrated(db.tables, w) == {} ==>
              Redistribute(db, w) == Purge(SetDraining(db, w), w)
    ensures !(db.workers[w].state.Draining? || !OtherOnline(db, w)) && Unmigrated(db.tables, w) != {} ==>
              StartDrain(db, w).Some? && Redistribute(db, w) == StartDrain(db, w).value
  {
    hide Safe, Purge, SetDraining, StartDrain;
    StartDrainQueues(db, w);
    if Unmigrated(db.tables, w) == {} { NothingToMove(db, w); }
  }

  /** A request to remove a server with redistribution loses no video of any source exactly when it is
      refused, or the server has an exclusive identifier (and so only starts to drain), or each of its
      completed items has a copy of the same source elsewhere. */
  lemma RedistributeKeepsSourcesWhen(db: DB, w: nat)
    requires Safe(db) && w in db.workers
    ensures EveryVideoKept(db, Redistribute(db, w)) <==>
              || db.workers[w].state.Draining? || !OtherOnline(db, w)
              || Unmigrated(db.tables, w) != {} || AllElsewhere(db, w)
  {
    hide Safe, Purge, SetDraining, StartDrain, Redistribute, Removed, CopiesOutside, AllElsewhere;
    RedistributeIs(db, w);
    if !db.workers[w].state.Draining? && OtherOnline(db, w) {
      if Unmigrated(db.tables, w) == {} {
        MarkedThenPurged(db, w);
        KeptExactly(db, Redistribute(db, w), {w});
        ElsewhereIsOutside(db, w);
      } else {
        DrainingKeeps(db, w);
      }
    }
  }

  // ---- A whole pass ------------------------------------------------------------------------------

  /** A completed item with the identifier, of whatever source, on a server outside `gone`. */
  ghost predicate NumberOutside(db: DB, gone: set<nat>, id: int) {
    exists k :: k in db.tables.items && k.id == id && db.tables.items[k].status.Completed?
                && db.tables.items[k].worker.Some? && !OnOneOf(db.tables.items[k], gone)
  }

  /** The check of `w` after `gone` were removed: each of its identifiers is elsewhere. */
  ghost predicate Passes(db: DB, gone: set<nat>, w: nat) {
    forall k :: CompletedOn(db.tables, w, k) ==> NumberOutside(db, gone + {w}, k.id)
  }

  /** The servers a pass removes, told from the tables before it. */
  ghost function Gone(db: DB, held: set<nat>, order: seq<nat>): set<nat> {
    if order == [] then {}
    else
      var before := Gone(db, held, order[..|order| - 1]);
      var w := order[|order| - 1];
      if w !in held && (w in before || Passes(db, before, w)) then before + {w} else before
  }

  lemma NothingRemoved(db: DB)
    ensures Removed(db, db, {})
  {
  }

  /** The check sees what the pass removed before. */
  lemma CheckIsPasses(db: DB, d: DB, gone: set<nat>, w: nat)
    requires Removed(db, d, gone)
    ensures w in gone ==> Unmigrated(d.tables, w) == {}
    ensures w !in gone ==> (Unmigrated(d.tables, w) == {} <==> Passes(db, gone, w))
  {
    hide Unmigrated;
    UnmigratedMeans(d.tables, w);
    forall k ensures CompletedOn(d.tables, w, k) <==> CompletedOn(db.tables, w, k) && w !in gone {}
    forall id ensures CopyElsewhere(d.tables, w, id) <==> NumberOutside(db, gone + {w}, id) {
      if CopyElsewhere(d.tables, w, id) {
        var k :| k in d.tables.items && k.id == id && d.tables.items[k].status.Completed?
                 && d.tables.items[k].worker.Some? && d.tables.items[k].worker != Some(w);
        assert !OnOneOf(db.tables.items[k], gone + {w});
      }
      if NumberOutside(db, gone + {w}, id) {
        var k :| k in db.tables.items && k.id == id && db.tables.items[k].status.Completed?
                 && db.tables.items[k].worker.Some? && !OnOneOf(db.tables.items[k], gone + {w});
        assert k in d.tables.items && d.tables.items[k].worker != Some(w);
      }
    }
  }

  lemma UnmigratedMeans(t: Tables, w: nat)
    ensures Unmigrated(t, w) == {} <==> forall k :: CompletedOn(t, w, k) ==> CopyElsewhere(t, w, k.id)
  {
    forall k | CompletedOn(t, w, k) && !CopyElsewhere(t, w, k.id) ensures k in Unmigrated(t, w) {}
  }

  lemma {:induction false} PassRemoves(db: DB, held: set<nat>, order: seq<nat>)
    ensures Removed(db, Finalize(db, held, order), Gone(db, held, order))
  {
    hide Removed, Purge, Passes, Unmigrated;
    if order == [] {
      NothingRemoved(db);
    } else {
      var n := |order| - 1;
      var d, before := Finalize(db, held, order[..n]), Gone(db, held, order[..n]);
      PassRemoves(db, held, order[..n]);
      CheckIsPasses(db, d, before, order[n]);
      PurgeRemoves(d, order[n]);
      RemovedJoins(db, d, Purge(d, order[n]), before, {order[n]});
    }
  }

  /** A pass over several draining servers, backing each other up in whatever way, loses no video of any source
      exactly when each video that has a copy has one of its own source on a server the pass leaves. */
  lemma {:induction false} PassKeepsSourcesWhen(db: DB, held: set<nat>, order: seq<nat>)
    ensures EveryVideoKept(db, Finalize(db, held, order)) <==> CopiesOutside(db, Gone(db, held, order))
  {
    hide Removed, Finalize, Gone, EveryVideoKept, CopiesOutside;
    PassRemoves(db, held, order);
    KeptExactly(db, Finalize(db, held, order), Gone(db, held, order));
  }
}
