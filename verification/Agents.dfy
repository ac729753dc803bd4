/** The coordinator together with the agents: each agent runs the batch loop over the chunk it leased,
    and any request or reply of it may be lost. */
module Agents {
  import opened Rows
  import opened Catalogue
  import opened Database
  import opened SchedulerSpec
  import opened Requests

  /** Between chunks, or at identifier `cur` of a chunk whose last identifier is `end`. */
  datatype Agent = Idle | Working(chunk: nat, cur: int, end: int)

  datatype Sys = Sys(db: DB, agents: map<nat, Agent>)
  {
    function AgentOf(w: nat): Agent {
      if w in agents then agents[w] else Idle
    }
  }

  /** The request never arrives, or its reply is lost, or both go through. */
  datatype Fate = Lost | Unanswered | Answered

  datatype Move =
    | Serve(request: Request)
    | Ask(worker: nat, lease: int, fate: Fate)
    | Send(worker: nat, batch: int, results: seq<Result>, fate: Fate)
    | Finish(worker: nat, fate: Fate)
    | Crash(worker: nat)

  /** Requests that do not come out of an agent's batch loop. */
  predicate Outside(r: Request) {
    !r.TakeLease? && !r.Report? && !r.Complete?
  }

  /** What checking and downloading an identifier can end in. */
  predicate Conclusive(status: ItemStatus) {
    || status.Found? || status.NotFound? || status.Forbidden? || status.Completed?
    || status.Failed? || status.RetryWait? || status.RateLimited?
  }

  /** Where the batch starting at `cur` ends (exclusive). */
  function BatchEnd(cur: int, batch: int, end: int): int {
    Min(cur + batch, end + 1)
  }

  /** One result for each identifier of [lo,hi), in order. */
  predicate IsBatch(rs: seq<Result>, lo: int, hi: int) {
    && lo <= hi && |rs| == hi - lo
    && forall i :: 0 <= i < |rs| ==> rs[i].id == lo + i && Conclusive(rs[i].status)
  }

  /** Can the agent make this move now? Batches are at least one identifier long. */
  predicate Enabled(s: Sys, m: Move) {
    match m
    case Serve(r) => Outside(r)
    case Ask(w, lease, fate) => s.AgentOf(w).Idle?
    case Send(w, batch, rs, fate) =>
      && s.AgentOf(w).Working? && batch >= 1
      && var a := s.AgentOf(w);
         a.cur <= a.end && IsBatch(rs, a.cur, BatchEnd(a.cur, batch, a.end))
    case Finish(w, fate) => s.AgentOf(w).Working? && s.AgentOf(w).cur > s.AgentOf(w).end
    case Crash(w) => true
  }

  /** The request a move makes the coordinator process, if one arrives. */
  function Arrives(s: Sys, m: Move): Option<Request>
    requires Enabled(s, m)
  {
    match m
    case Serve(r) => Some(r)
    case Ask(w, lease, fate) => if fate.Lost? then None else Some(TakeLease(w, lease))
    case Send(w, batch, rs, fate) =>
      var a := s.AgentOf(w);
      if fate.Lost? then None else Some(Report(w, a.chunk, BatchEnd(a.cur, batch, a.end), rs))
    case Finish(w, fate) =>
      if fate.Lost? then None else Some(Complete(w, s.AgentOf(w).chunk, ChunkStatus.Completed))
    case Crash(w) => None
  }

  ghost function After(s: Sys, m: Move): DB
    requires Enabled(s, m)
  {
    if Arrives(s, m).Some? then Apply(s.db, Arrives(s, m).value) else s.db
  }

  /** What the agent does next: it goes on only when a reply tells it to. */
  ghost function AgentAfter(s: Sys, m: Move): Agent
    requires Enabled(s, m) && !m.Serve?
  {
    match m
    case Ask(w, lease, fate) =>
      if !fate.Answered? || w !in s.db.workers then Idle
      else
        var (d, reply) := Lease(s.db, w, lease);
        if reply.Given? && reply.chunk in d.chunks then
          Working(reply.chunk, d.chunks[reply.chunk].next, d.chunks[reply.chunk].hi)
        else Idle
    case Send(w, batch, rs, fate) =>
      var a := s.AgentOf(w);
      var next := BatchEnd(a.cur, batch, a.end);
      if fate.Answered? && w in s.db.workers && Progress(s.db, w, a.chunk, next, rs).1 == Stored(true)
      then Working(a.chunk, next, a.end) else Idle
    case _ => Idle
  }

  ghost function Next(s: Sys, m: Move): Sys {
    if !Enabled(s, m) then s
    else if m.Serve? then Sys(After(s, m), s.agents)
    else Sys(After(s, m), s.agents[m.worker := AgentAfter(s, m)])
  }

  const START: Sys := Sys(EMPTY, map[])

  ghost function Play(s: Sys, ms: seq<Move>): Sys {
    if ms == [] then s else Next(Play(s, ms[..|ms| - 1]), ms[|ms| - 1])
  }

  lemma {:induction false} PlayOn(s: Sys, ms: seq<Move>, m: Move)
    ensures Play(s, ms + [m]) == Next(Play(s, ms), m)
  {
    assert (ms + [m])[..|ms|] == ms;
  }

  lemma {:induction false} PlayJoins(s: Sys, a: seq<Move>, b: seq<Move>)
    ensures Play(s, a + b) == Play(Play(s, a), b)
    decreases |b|
  {
    if b == [] {
      assert a + b == a;
    } else {
      var n := |b| - 1;
      PlayJoins(s, a, b[..n]);
      assert a + b == (a + b[..n]) + [b[n]];
      PlayOn(s, a + b[..n], b[n]);
    }
  }

  lemma {:induction false} PlayThree(s: Sys, a: Move, b: Move, c: Move)
    ensures Play(s, [a, b, c]) == Next(Next(Next(s, a), b), c)
  {
    PlayOn(s, [], a);
    PlayOn(s, [a], b);
    PlayOn(s, [a, b], c);
    assert [] + [a] == [a] && [a] + [b] == [a, b] && [a, b] + [c] == [a, b, c];
  }

  /** The requests that reach the coordinator in a play, in order. */
  ghost function Arrivals(s: Sys, ms: seq<Move>): seq<Request> {
    if ms == [] then []
    else
      var n := |ms| - 1;
      var before := Play(s, ms[..n]);
      Arrivals(s, ms[..n])
      + if Enabled(before, ms[n]) && Arrives(before, ms[n]).Some? then [Arrives(before, ms[n]).value] else []
  }

  /** What a play does to the database is the run of the requests that arrive. */
  lemma {:induction false} PlayIsRun(s: Sys, ms: seq<Move>)
    ensures Play(s, ms).db == Run(s.db, Arrivals(s, ms))
  {
    hide Apply, Enabled;
    if ms != [] {
      var n := |ms| - 1;
      var before := Play(s, ms[..n]);
      PlayIsRun(s, ms[..n]);
      if Enabled(before, ms[n]) && Arrives(before, ms[n]).Some? {
        var r := Arrives(before, ms[n]).value;
        assert (Arrivals(s, ms[..n]) + [r])[..|Arrivals(s, ms[..n])|] == Arrivals(s, ms[..n]);
      } else {
        assert Arrivals(s, ms) == Arrivals(s, ms[..n]);
      }
    }
  }

  /** One result of the given status for each identifier of [lo,hi). */
  function Uniform(lo: int, hi: int, status: ItemStatus): (rs: seq<Result>)
    requires lo <= hi
    ensures |rs| == hi - lo
    ensures forall i :: 0 <= i < |rs| ==> rs[i].id == lo + i && rs[i].status == status
  {
    seq(hi - lo, i requires 0 <= i < hi - lo => Result(lo + i, status, None, None, None, None, None, None, None, None))
  }
}
