/** The agent's side: handling one identifier, and the batch loop over a leased chunk. */
module Runner {
  import opened Rows
  import opened Catalogue
  import opened Requests
  import opened Agents

  /** What came back for a progress report: an error of any kind, or an acknowledgement. */
  datatype Reply = Error | Ack(proceed: bool)

  datatype Message =
    | Progress(chunk: nat, next: int, results: seq<Result>)
    | Finished(chunk: nat)

  /** A downloaded file, or None when the download failed. */
  datatype File = File(path: string, size: Option<int>, mime: Option<string>)

  /** Where the loop stands before its i-th message. */
  function CurAt(start: int, sent: seq<Message>, i: nat): int
    requires i <= |sent|
  {
    if i == 0 then start
    else if sent[i - 1].Progress? then sent[i - 1].next
    else start
  }

  ghost predicate ReportsBatch(m: Message, chunk: nat, cur: int, batch: int, end: int) {
    && m.Progress? && m.chunk == chunk && cur <= end
    && m.next == BatchEnd(cur, batch, end) && IsBatch(m.results, cur, m.next)
  }

  /** The messages are consecutive batches from `start`, each sent only after the one before it was
      acknowledged with "proceed", and possibly a completion at the end. */
  ghost predicate Consistent(chunk: nat, start: int, end: int, batch: int, answer: nat -> Reply, sent: seq<Message>) {
    && (forall i :: 0 <= i < |sent| && sent[i].Progress? ==> ReportsBatch(sent[i], chunk, CurAt(start, sent, i), batch, end))
    && (forall i :: 0 <= i < |sent| - 1 ==> sent[i].Progress? && answer(i) == Ack(true))
  }

  /** All reports so far were acknowledged with "proceed", and they cover the chunk. */
  ghost predicate Exhausted(start: int, end: int, answer: nat -> Reply, reports: seq<Message>) {
    CurAt(start, reports, |reports|) > end && Continued(answer, reports)
  }

  /** Everything sent so far is a report that was acknowledged with "proceed". */
  ghost predicate Continued(answer: nat -> Reply, sent: seq<Message>) {
    forall i :: 0 <= i < |sent| ==> sent[i].Progress? && answer(i) == Ack(true)
  }

  lemma NothingSent(chunk: nat, start: int, end: int, batch: int, answer: nat -> Reply)
    ensures Consistent(chunk, start, end, batch, answer, []) && CurAt(start, [], 0) == start
  {
  }

  lemma StandsAfter(start: int, sent: seq<Message>, i: nat)
    requires i <= |sent|
    ensures CurAt(start, sent, i) == if i > 0 && sent[i - 1].Progress? then sent[i - 1].next else start
  {
  }

  lemma OneMore(chunk: nat, start: int, end: int, batch: int, answer: nat -> Reply,
                sent: seq<Message>, m: Message)
    requires Consistent(chunk, start, end, batch, answer, sent) && Continued(answer, sent)
    requires m.Progress? ==> ReportsBatch(m, chunk, CurAt(start, sent, |sent|), batch, end)
    ensures Consistent(chunk, start, end, batch, answer, sent + [m])
    ensures m.Progress? ==> CurAt(start, sent + [m], |sent| + 1) == m.next
  {
    hide CurAt, ReportsBatch;
    var all := sent + [m];
    forall i | 0 <= i <= |sent| ensures CurAt(start, all, i) == CurAt(start, sent, i) {
      StandsAfter(start, all, i);
      StandsAfter(start, sent, i);
    }
    StandsAfter(start, all, |all|);
  }

  /** The message reports `batch` identifiers from `lo` on, or what there is of them up to `end`, with the
      outcome of each in order. */
  predicate ReportsFrom(m: Message, chunk: nat, lo: int, end: int, batch: int, handle: int -> Result) {
    && m.Progress? && m.chunk == chunk && lo <= end
    && |m.results| == (if end - lo + 1 < batch then end - lo + 1 else batch)
    && m.next == lo + |m.results|
    && forall k :: 0 <= k < |m.results| ==> m.results[k] == handle(lo + k)
  }

  /** It reports the i-th block of [start,end]. */
  predicate ReportsBlock(m: Message, chunk: nat, start: int, end: int, batch: int, i: nat, handle: int -> Result) {
    ReportsFrom(m, chunk, start + i * batch, end, batch, handle)
  }

  lemma ReportAt(chunk: nat, start: int, end: int, batch: int, answer: nat -> Reply, sent: seq<Message>, i: nat)
    requires Consistent(chunk, start, end, batch, answer, sent) && i < |sent|
    ensures sent[i].Progress? ==> ReportsBatch(sent[i], chunk, CurAt(start, sent, i), batch, end)
    ensures i > 0 ==> sent[i - 1].Progress?
  {
    hide CurAt, ReportsBatch;
  }

  /** Consistent reports are the blocks one after another. */
  lemma BlocksFollow(chunk: nat, start: int, end: int, batch: int, answer: nat -> Reply,
                                        sent: seq<Message>, i: nat)
    requires batch >= 1 && Consistent(chunk, start, end, batch, answer, sent) && i < |sent| && sent[i].Progress?
    ensures CurAt(start, sent, i) == start + i * batch
  {
    hide CurAt, Consistent;
    ReportAt(chunk, start, end, batch, answer, sent, i);
    StandsAfter(start, sent, i);
    if i > 0 {
      BlocksFollow(chunk, start, end, batch, answer, sent, i - 1);
      ReportAt(chunk, start, end, batch, answer, sent, i - 1);
      assert start + (i - 1) * batch + batch == start + i * batch;
    }
  }

  /** The results reported are those of `handle`. */
  ghost predicate Handled(sent: seq<Message>, handle: int -> Result) {
    forall i :: 0 <= i < |sent| && sent[i].Progress? ==> AreHandled(sent[i].results, handle)
  }

  predicate AreHandled(rs: seq<Result>, handle: int -> Result) {
    forall k :: 0 <= k < |rs| ==> rs[k] == handle(rs[k].id)
  }

  lemma BatchIsBlock(m: Message, chunk: nat, lo: int, end: int, batch: int, handle: int -> Result)
    requires batch >= 1 && ReportsBatch(m, chunk, lo, batch, end) && AreHandled(m.results, handle)
    ensures ReportsFrom(m, chunk, lo, end, batch, handle)
  {
  }

  lemma SentBlock(chunk: nat, start: int, end: int, batch: int, answer: nat -> Reply, sent: seq<Message>,
                  handle: int -> Result, i: nat)
    requires batch >= 1 && Consistent(chunk, start, end, batch, answer, sent) && Handled(sent, handle)
    requires i < |sent| && sent[i].Progress?
    ensures ReportsBlock(sent[i], chunk, start, end, batch, i, handle)
  {
    hide ReportsFrom, AreHandled, ReportsBatch, CurAt, Consistent;
    var lo := CurAt(start, sent, i);
    BlocksFollow(chunk, start, end, batch, answer, sent, i);
    ReportAt(chunk, start, end, batch, answer, sent, i);
    assert AreHandled(sent[i].results, handle);
    BatchIsBlock(sent[i], chunk, lo, end, batch, handle);
  }

  lemma SentBlocks(chunk: nat, start: int, end: int, batch: int, answer: nat -> Reply, sent: seq<Message>,
                   handle: int -> Result)
    requires batch >= 1 && Consistent(chunk, start, end, batch, answer, sent) && Handled(sent, handle)
    ensures forall i :: 0 <= i < |sent| && sent[i].Progress? ==> ReportsBlock(sent[i], chunk, start, end, batch, i, handle)
  {
    hide Consistent, Handled, ReportsBlock;
    forall i | 0 <= i < |sent| && sent[i].Progress? ensures ReportsBlock(sent[i], chunk, start, end, batch, i, handle) {
      SentBlock(chunk, start, end, batch, answer, sent, handle, i);
    }
  }

  /** Consecutive blocks that cover the chunk. */
  lemma BlocksCover(chunk: nat, start: int, end: int, batch: int, answer: nat -> Reply, reports: seq<Message>)
    requires batch >= 1 && Consistent(chunk, start, end, batch, answer, reports) && Continued(answer, reports)
    requires CurAt(start, reports, |reports|) > end
    ensures start + |reports| * batch > end
  {
    hide CurAt, Consistent;
    var n := |reports|;
    StandsAfter(start, reports, n);
    if n > 0 {
      BlocksFollow(chunk, start, end, batch, answer, reports, n - 1);
      ReportAt(chunk, start, end, batch, answer, reports, n - 1);
      assert start + (n - 1) * batch + batch == start + n * batch;
    }
  }

  class WorkerRunner {
    var activeChunk: Option<nat>

    constructor ()
      ensures activeChunk.None?
    {
      activeChunk := None;
    }

    /** Check one identifier, once more on the direct route if that is worthwhile, and download what was
        found. `first` and `second` are the outcomes of the checks, `file` and `again` of the downloads, and
        `reason` is what the failed download complained about, of which 200 characters are kept. */
    method HandleId(id: int, first: Result, reroute: bool, second: Result, downloads: bool,
                    file: Option<File>, rerouteDownload: bool, again: Option<File>, reason: string)
      returns (r: Result)
      requires first.id == second.id == id
      requires Checked(first.status) && Checked(second.status)
      ensures r.id == id && Conclusive(r.status)
      ensures r.status.Completed? <==>
                && downloads && (if first.status.RetryWait? && reroute then second else first).status.Found?
                && (file.Some? || (rerouteDownload && again.Some?))
      ensures r.status.Completed? ==> r.path == Some((if file.Some? then file else again).value.path)
      ensures r.status.Found? ==> !downloads
      ensures var checked := if first.status.RetryWait? && reroute then second else first;
              if !checked.status.Found? || !downloads then r == checked
              else if file.None? && !(rerouteDownload && again.Some?) then
                r == checked.(status := ItemStatus.Failed, error := r.error)
                && r.error.Some? && r.error.value <= reason && |r.error.value| == Min(200, |reason|)
              else
                var f := if file.Some? then file.value else again.value;
                && r == checked.(status := ItemStatus.Completed, path := Some(f.path), size := r.size, mime := r.mime)
                && r.size == (match f.size case Some(n) => if n != 0 then f.size else checked.size case None => checked.size)
                && r.mime == (match f.mime case Some(m) => if m != "" then f.mime else checked.mime case None => checked.mime)
    {
      r := first;
      if r.status.RetryWait? && reroute { r := second; }
      if r.status.Found? && downloads {
        var got := file;
        if got.None? && rerouteDownload { got := again; }
        match got {
          case Some(f) =>
            r := r.(status := ItemStatus.Completed, path := Some(f.path),
                    size := if f.size.Some? && f.size.value != 0 then f.size else r.size,
                    mime := if Truthy(f.mime) then f.mime else r.mime);
          case None =>
            r := r.(status := ItemStatus.Failed, error := Some(reason[..Min(200, |reason|)]));
        }
      }
    }

    /** The batch loop. `handle` gives the outcome of each identifier, `answer` the reply to each report,
        and `stop` whether the agent was told to stop by the time of each round. `active` notes which chunk
        heartbeats renew when each message is sent. */
    method ProcessChunkBody(chunk: nat, start: int, end: int, batch: int,
                            handle: int -> Result, answer: nat -> Reply, stop: nat -> bool)
      returns (sent: seq<Message>, ghost active: seq<Option<nat>>)
      requires batch >= 1
      requires forall x :: handle(x).id == x && Conclusive(handle(x).status)
      ensures |active| == |sent| && forall i :: 0 <= i < |active| ==> active[i] == activeChunk
      ensures Consistent(chunk, start, end, batch, answer, sent)
      ensures forall i :: 0 <= i < |sent| && sent[i].Progress? ==> ReportsBlock(sent[i], chunk, start, end, batch, i, handle)
      ensures sent != [] && sent[|sent| - 1].Finished? ==>
                sent[|sent| - 1].chunk == chunk && Exhausted(start, end, answer, sent[..|sent| - 1])
                && start + (|sent| - 1) * batch > end
      ensures (sent == [] || sent[|sent| - 1].Progress?) ==>
                stop(|sent|) || (sent != [] && answer(|sent| - 1) != Ack(true))
    {
      hide Consistent, CurAt, ReportsBlock, AreHandled;
      sent, active := [], [];
      var cur := start;
      NothingSent(chunk, start, end, batch, answer);
      while cur <= end && !stop(|sent|)
        invariant Consistent(chunk, start, end, batch, answer, sent) && Continued(answer, sent)
        invariant cur == CurAt(start, sent, |sent|) && Handled(sent, handle)
        invariant |active| == |sent| && forall i :: 0 <= i < |active| ==> active[i] == activeChunk
        decreases end + 1 - cur
      {
        var batchEnd := if cur + batch <= end + 1 then cur + batch else end + 1;
        var results := Gather(cur, batchEnd, handle);
        OneMore(chunk, start, end, batch, answer, sent, Progress(chunk, batchEnd, results));
        sent, active := sent + [Progress(chunk, batchEnd, results)], active + [activeChunk];
        if answer(|sent| - 1) != Ack(true) {
          SentBlocks(chunk, start, end, batch, answer, sent, handle);
          return;
        }
        cur := batchEnd;
      }
      if !stop(|sent|) {
        BlocksCover(chunk, start, end, batch, answer, sent);
        OneMore(chunk, start, end, batch, answer, sent, Finished(chunk));
        assert (sent + [Finished(chunk)])[..|sent|] == sent;
        sent, active := sent + [Finished(chunk)], active + [activeChunk];
      }
      SentBlocks(chunk, start, end, batch, answer, sent, handle);
    }

    /** Handle the identifiers of one batch. */
    method Gather(lo: int, hi: int, handle: int -> Result) returns (results: seq<Result>)
      requires lo <= hi && forall x :: handle(x).id == x && Conclusive(handle(x).status)
      ensures IsBatch(results, lo, hi) && AreHandled(results, handle)
    {
      results := [];
      var i := lo;
      while i < hi
        invariant lo <= i <= hi && IsBatch(results, lo, i) && AreHandled(results, handle)
      {
        results := results + [handle(i)];
        i := i + 1;
      }
    }

    /** Work on a leased chunk from its checkpoint. Whenever a message is sent, heartbeats renew this chunk
        and no other; afterwards they renew none. */
    method ProcessChunk(chunk: nat, next: int, end: int, batch: int,
                        handle: int -> Result, answer: nat -> Reply, stop: nat -> bool)
      returns (sent: seq<Message>, ghost active: seq<Option<nat>>)
      requires batch >= 1
      requires forall x :: handle(x).id == x && Conclusive(handle(x).status)
      modifies this
      ensures |active| == |sent| && forall i :: 0 <= i < |active| ==> active[i] == Some(chunk)
      ensures activeChunk.None?
      ensures Consistent(chunk, next, end, batch, answer, sent)
      ensures forall i :: 0 <= i < |sent| && sent[i].Progress? ==> ReportsBlock(sent[i], chunk, next, end, batch, i, handle)
    {
      activeChunk := Some(chunk);
      sent, active := ProcessChunkBody(chunk, next, end, batch, handle, answer, stop);
      activeChunk := None;
    }
  }

  /** What a check alone can end in. */
  predicate Checked(status: ItemStatus) {
    || status.Found? || status.NotFound? || status.Forbidden? || status.RetryWait? || status.RateLimited?
  }

  // ---- The loop is the agent of the protocol ----------------------------------------------------

  /** Every report of the loop is a move the protocol's agent can make where the loop stands, and its
      completion is one too: what is proved for plays covers this loop. */
  lemma LoopMovesAreEnabled(s: Sys, w: nat, chunk: nat, start: int, end: int, batch: int,
                            answer: nat -> Reply,
                            sent: seq<Message>, i: nat, fate: Fate)
    requires batch >= 1 && Consistent(chunk, start, end, batch, answer, sent) && i < |sent|
    requires s.AgentOf(w) == Working(chunk, CurAt(start, sent, i), end)
    ensures sent[i].Progress? ==>
              var m := Send(w, batch, sent[i].results, fate);
              Enabled(s, m) && (!fate.Lost? ==> Arrives(s, m) == Some(Request.Report(w, chunk, sent[i].next, sent[i].results)))
    ensures sent[i].Progress? && fate.Answered? && AgentAfter(s, Send(w, batch, sent[i].results, fate)).Working? ==>
              AgentAfter(s, Send(w, batch, sent[i].results, fate)) == Working(chunk, CurAt(start, sent, i + 1), end)
    ensures sent[i].Finished? && i == |sent| - 1 && Exhausted(start, end, answer, sent[..i]) ==> Enabled(s, Finish(w, fate))
  {
    if sent[i].Progress? {
      assert ReportsBatch(sent[i], chunk, CurAt(start, sent, i), batch, end);
    } else {
      assert CurAt(start, sent[..i], i) == CurAt(start, sent, i);
    }
  }
}
