/** The login limiter: two sliding windows over pruned queues, against a reference that remembers every
    failure. Times are exact, the clock is monotone. */
module LoginThrottle {
  import Ranges

  /** A client address and a normalised user name. */
  datatype Who = Who(ip: string, user: string)

  datatype Entry = Failure(who: Who, at: real) | Success(who: Who) | Reset

  const MAX_NAME := 150
  const GC_THRESHOLD := 10000
  const CLEAR_THRESHOLD := 50000

  function Lower(c: char): char {
    if 'A' <= c <= 'Z' then (c as int + 32) as char else c
  }

  function LowerAll(s: string): (r: string)
    ensures |r| == |s| && forall i :: 0 <= i < |s| ==> r[i] == Lower(s[i])
  {
    seq(|s|, i requires 0 <= i < |s| => Lower(s[i]))
  }

  /** strip, lower, and at most MAX_NAME characters. */
  function Norm(username: string): string {
    var name := LowerAll(Ranges.Strip(username));
    if |name| > MAX_NAME then name[..MAX_NAME] else name
  }

  /** Padding a user name with spaces does not open another window. */
  lemma NormIgnoresPadding(left: string, name: string, right: string)
    requires Ranges.AllSpace(left) && Ranges.AllSpace(right)
    ensures Norm(left + name + right) == Norm(name)
  {
    assert left + name + right == left + (name + right);
    Ranges.StripLeftPad(left, name + right);
    Ranges.StripLeftKeeps(name, right);
  }

  /** The same letter, whatever its case. */
  predicate SameLetter(a: char, b: char) {
    a == b || ('A' <= a <= 'Z' && b as int == a as int + 32) || ('A' <= b <= 'Z' && a as int == b as int + 32)
  }

  /** The same text, whatever the case of its letters. */
  ghost predicate SameName(s: string, t: string) {
    |s| == |t| && forall i :: 0 <= i < |s| ==> SameLetter(s[i], t[i])
  }

  function First150(s: string): string {
    if |s| <= 150 then s else s[..150]
  }

  /** Two user names share their windows exactly when, stripped, their first 150 characters differ in case
      at most. */
  lemma NormsMatch(s: string, t: string)
    ensures Norm(s) == Norm(t) <==> SameName(First150(Ranges.Strip(s)), First150(Ranges.Strip(t)))
  {
    var a, b := First150(Ranges.Strip(s)), First150(Ranges.Strip(t));
    assert Norm(s) == LowerAll(a) && Norm(t) == LowerAll(b);
    if Norm(s) == Norm(t) {
      forall i | 0 <= i < |a| ensures SameLetter(a[i], b[i]) {
        assert LowerAll(a)[i] == LowerAll(b)[i];
      }
    }
  }

  // ---- The reference: all failures ever -----------------------------------------------------------

  /** Failures of the pair since its last success. */
  function PairFailures(history: seq<Entry>, who: Who): seq<real> {
    if history == [] then []
    else
      var before := PairFailures(history[..|history| - 1], who);
      match history[|history| - 1]
      case Failure(w, at) => if w == who then before + [at] else before
      case Success(w) => if w == who then [] else before
      case Reset => []
  }

  /** Failures from the address. */
  function IpFailures(history: seq<Entry>, ip: string): seq<real> {
    if history == [] then []
    else
      var before := IpFailures(history[..|history| - 1], ip);
      match history[|history| - 1]
      case Failure(w, at) => if w.ip == ip then before + [at] else before
      case Success(_) => before
      case Reset => []
  }

  /** Those younger than the window. */
  function Live(ts: seq<real>, now: real, window: real): seq<real> {
    if ts == [] then []
    else
      var before := Live(ts[..|ts| - 1], now, window);
      if now - ts[|ts| - 1] < window then before + [ts[|ts| - 1]] else before
  }

  /** The attempt is refused when either count of recent failures has reached its limit. */
  predicate Refused(pair: seq<real>, ip: seq<real>, limit: nat, ipLimit: nat, now: real, window: real) {
    |Live(pair, now, window)| >= limit || |Live(ip, now, window)| >= ipLimit
  }

  /** A table of queues with every expired entry, and every queue left empty, dropped. */
  ghost function Collected<K>(queues: map<K, seq<real>>, now: real, window: real): map<K, seq<real>> {
    map k | k in queues && Live(queues[k], now, window) != [] :: Live(queues[k], now, window)
  }

  // ---- Sorted queues -----------------------------------------------------------------------------

  predicate NonDecreasing(ts: seq<real>) {
    forall i, k :: 0 <= i <= k < |ts| ==> ts[i] <= ts[k]
  }

  predicate Sorted(ts: seq<real>, latest: real) {
    && NonDecreasing(ts)
    && (forall i :: 0 <= i < |ts| ==> ts[i] <= latest)
  }

  lemma {:induction false} AllLive(ts: seq<real>, now: real, window: real)
    requires forall i :: 0 <= i < |ts| ==> now - ts[i] < window
    ensures Live(ts, now, window) == ts
  {
    if ts != [] {
      AllLive(ts[..|ts| - 1], now, window);
      assert ts == ts[..|ts| - 1] + [ts[|ts| - 1]];
    }
  }

  /** What has expired at the front makes no difference. */
  lemma {:induction false} LiveDrops(a: seq<real>, b: seq<real>, now: real, window: real)
    requires forall i :: 0 <= i < |a| ==> now - a[i] >= window
    ensures Live(a + b, now, window) == Live(b, now, window)
    decreases |a| + |b|
  {
    if b != [] {
      var n := |b| - 1;
      LiveDrops(a, b[..n], now, window);
      assert (a + b)[..|a + b| - 1] == a + b[..n];
    } else if a != [] {
      LiveDrops(a[..|a| - 1], [], now, window);
      assert a + b == a && a[..|a| - 1] + [] == a[..|a| - 1];
    }
  }

  /** In a sorted queue, the live entries are those from the first live one on. */
  lemma {:induction false} LiveFrom(ts: seq<real>, k: nat, now: real, window: real)
    requires k <= |ts| && forall i :: 0 <= i < k ==> now - ts[i] >= window
    requires forall i :: k <= i < |ts| ==> now - ts[i] < window
    ensures Live(ts, now, window) == ts[k..]
  {
    assert ts == ts[..k] + ts[k..];
    LiveDrops(ts[..k], ts[k..], now, window);
    AllLive(ts[k..], now, window);
  }

  // ---- How the queue follows the reference -------------------------------------------------------

  /** The queue is the end of the full list; when `exact`, what is missing had expired at `latest`. */
  ghost predicate Follows(queue: seq<real>, full: seq<real>, latest: real, window: real, exact: bool) {
    && |queue| <= |full| && queue == full[|full| - |queue|..]
    && (exact ==> forall i :: 0 <= i < |full| - |queue| ==> latest - full[i] >= window)
  }

  /** From a queue that follows exactly, counting gives what the full list gives; otherwise no more. */
  lemma {:induction false} FollowsLive(queue: seq<real>, full: seq<real>, latest: real, window: real, exact: bool,
                                       now: real)
    requires Follows(queue, full, latest, window, exact) && Sorted(full, latest) && now >= latest
    ensures exact ==> Live(queue, now, window) == Live(full, now, window)
    ensures |Live(queue, now, window)| <= |Live(full, now, window)|
  {
    var k := |full| - |queue|;
    assert full == full[..k] + queue;
    if exact {
      LiveDrops(full[..k], queue, now, window);
    } else {
      LiveJoins(full[..k], queue, now, window);
    }
  }

  lemma {:induction false} LiveJoins(a: seq<real>, b: seq<real>, now: real, window: real)
    ensures Live(a + b, now, window) == Live(a, now, window) + Live(b, now, window)
    decreases |b|
  {
    if b == [] {
      assert a + b == a;
    } else {
      var n := |b| - 1;
      LiveJoins(a, b[..n], now, window);
      assert (a + b)[..|a + b| - 1] == a + b[..n];
    }
  }

  /** Pruning the queue keeps it following. */
  lemma PruneFollows(queue: seq<real>, pruned: seq<real>, full: seq<real>, latest: real,
                     window: real, exact: bool, now: real)
    requires Follows(queue, full, latest, window, exact) && now >= latest
    requires |pruned| <= |queue| && pruned == queue[|queue| - |pruned|..]
    requires forall i :: 0 <= i < |queue| - |pruned| ==> now - queue[i] >= window
    ensures Follows(pruned, full, now, window, exact)
  {
    var k := |full| - |queue|;
    assert forall i :: 0 <= i < |queue| ==> queue[i] == full[k + i];
    if exact {
      forall i | 0 <= i < |full| - |pruned| ensures now - full[i] >= window {
        if i >= k { assert queue[i - k] == full[i]; }
      }
    }
  }

  /** Later, still at most as many are live; and a live entry keeps everything after it live. */
  lemma {:induction false} LiveLater(ts: seq<real>, latest: real, now: real, later: real, window: real)
    requires Sorted(ts, latest) && now <= later
    ensures |Live(ts, later, window)| <= |Live(ts, now, window)|
  {
    var k := FirstLive(ts, now, window);
    var m := FirstLive(ts, later, window);
    assert m < |ts| ==> later - ts[m] < window;
    assert k <= m;
    LiveFrom(ts, k, now, window);
    LiveFrom(ts, m, later, window);
  }

  lemma FirstLive(ts: seq<real>, now: real, window: real) returns (k: nat)
    requires NonDecreasing(ts)
    ensures k <= |ts|
    ensures forall i :: 0 <= i < k ==> now - ts[i] >= window
    ensures forall i :: k <= i < |ts| ==> now - ts[i] < window
  {
    k := 0;
    while k < |ts| && now - ts[k] >= window
      invariant k <= |ts| && forall i :: 0 <= i < k ==> now - ts[i] >= window
    {
      k := k + 1;
    }
  }

  function Ceil(x: real): int {
    -((-x).Floor)
  }

  lemma CeilMeans(x: real)
    ensures (Ceil(x) - 1) as real < x <= Ceil(x) as real
  {
  }

  class LoginLimiter {
    const maxFailures: nat
    const ipMaxFailures: nat
    const window: real
    var pair: map<Who, seq<real>>
    var ip: map<string, seq<real>>
    ghost var history: seq<Entry>
    ghost var latest: real
    /** Has the table of pairs ever been cleared for its size? */
    ghost var cleared: bool

    ghost function PairQueue(who: Who): seq<real>
      reads this
    {
      if who in pair then pair[who] else []
    }

    ghost function IpQueue(a: string): seq<real>
      reads this
    {
      if a in ip then ip[a] else []
    }

    ghost predicate Valid()
      reads this
    {
      && maxFailures >= 1 && ipMaxFailures >= 1
      && (forall who :: Sorted(PairFailures(history, who), latest)
                        && Follows(PairQueue(who), PairFailures(history, who), latest, window, !cleared))
      && (forall a :: Sorted(IpFailures(history, a), latest)
                      && Follows(IpQueue(a), IpFailures(history, a), latest, window, true))
    }

    /** What the reference says about an attempt. */
    ghost predicate ReferenceRefuses(who: Who, now: real)
      reads this
    {
      Refused(PairFailures(history, who), IpFailures(history, who.ip), maxFailures, ipMaxFailures, now, window)
    }

    /** What the queues say about it. */
    ghost predicate Refuses(who: Who, now: real)
      reads this
    {
      Refused(PairQueue(who), IpQueue(who.ip), maxFailures, ipMaxFailures, now, window)
    }

    /** No count is beyond its limit: failures were only recorded for attempts that had been allowed. */
    ghost predicate Disciplined()
      reads this
    {
      && (forall who :: |Live(PairQueue(who), latest, window)| <= maxFailures)
      && (forall a :: |Live(IpQueue(a), latest, window)| <= ipMaxFailures)
    }

    constructor (maxFailures: nat, ipMaxFailures: nat, window: real, now: real)
      requires maxFailures >= 1 && ipMaxFailures >= 1
      ensures Valid() && Disciplined() && history == [] && !cleared && latest == now
      ensures this.maxFailures == maxFailures && this.ipMaxFailures == ipMaxFailures && this.window == window
    {
      this.maxFailures, this.ipMaxFailures, this.window := maxFailures, ipMaxFailures, window;
      pair, ip := map[], map[];
      history, latest, cleared := [], now, false;
    }

    /** Drop expired entries from the left. */
    method Prune(queue: seq<real>, now: real) returns (pruned: seq<real>)
      requires NonDecreasing(queue)
      ensures pruned == Live(queue, now, window)
      ensures |pruned| <= |queue| && pruned == queue[|queue| - |pruned|..]
      ensures forall i :: 0 <= i < |queue| - |pruned| ==> now - queue[i] >= window
      ensures AllYoung(pruned, now, window)
    {
      pruned := queue;
      while pruned != [] && now - pruned[0] >= window
        invariant |pruned| <= |queue| && pruned == queue[|queue| - |pruned|..]
        invariant forall i :: 0 <= i < |queue| - |pruned| ==> now - queue[i] >= window
        decreases |pruned|
      {
        pruned := pruned[1..];
      }
      LiveFrom(queue, |queue| - |pruned|, now, window);
    }

    /** Time passes. */
    ghost method Advance(now: real)
      requires Valid() && now >= latest
      modifies `latest
      ensures Valid() && latest == now && (old(Disciplined()) ==> Disciplined())
    {
      ghost var before := latest;
      latest := now;
      forall who
        ensures Sorted(PairFailures(history, who), now)
        ensures Follows(PairQueue(who), PairFailures(history, who), now, window, !cleared)
        ensures |Live(PairQueue(who), now, window)| <= |Live(PairQueue(who), before, window)|
      {
        FollowsLater(PairQueue(who), PairFailures(history, who), before, window, !cleared, now);
      }
      forall a
        ensures Sorted(IpFailures(history, a), now)
        ensures Follows(IpQueue(a), IpFailures(history, a), now, window, true)
        ensures |Live(IpQueue(a), now, window)| <= |Live(IpQueue(a), before, window)|
      {
        FollowsLater(IpQueue(a), IpFailures(history, a), before, window, true, now);
      }
    }

    method PrunePair(who: Who, now: real)
      requires Valid() && now == latest && who in pair
      modifies `pair
      ensures Valid() && (old(Disciplined()) ==> Disciplined())
      ensures who in pair && AllYoung(pair[who], now, window) && pair == old(pair)[who := pair[who]]
      ensures pair[who] == Live(old(pair)[who], now, window)
    {
      hide Follows, Sorted, Live, AllYoung, PairFailures, IpFailures;
      var queue := Prune(PairQueueOf(who), now);
      YoungPruned(PairQueue(who), queue, PairFailures(history, who), latest, window, !cleared, now);
      pair := pair[who := queue];
    }

    function PairQueueOf(who: Who): (queue: seq<real>)
      requires Valid() && who in pair
      reads this
      ensures NonDecreasing(queue) && queue == PairQueue(who)
    {
      FollowsSorted(PairQueue(who), PairFailures(history, who), latest, window, !cleared);
      pair[who]
    }

    method PruneIp(a: string, now: real)
      requires Valid() && now == latest && a in ip
      modifies `ip
      ensures Valid() && (old(Disciplined()) ==> Disciplined())
      ensures a in ip && AllYoung(ip[a], now, window) && ip == old(ip)[a := ip[a]]
      ensures ip[a] == Live(old(ip)[a], now, window)
    {
      hide Follows, Sorted, Live, AllYoung, PairFailures, IpFailures;
      var queue := Prune(IpQueueOf(a), now);
      YoungPruned(IpQueue(a), queue, IpFailures(history, a), latest, window, true, now);
      ip := ip[a := queue];
    }

    function IpQueueOf(a: string): (queue: seq<real>)
      requires Valid() && a in ip
      reads this
      ensures NonDecreasing(queue) && queue == IpQueue(a)
    {
      FollowsSorted(IpQueue(a), IpFailures(history, a), latest, window, true);
      ip[a]
    }

    /** How long the pair's queue, pruned, makes an attempt wait. */
    method CheckPair(who: Who, now: real) returns (seconds: real)
      requires Valid() && now == latest
      modifies `pair
      ensures Valid() && (old(Disciplined()) ==> Disciplined())
      ensures HoldsFor(PairQueue(who), maxFailures, now, window, seconds)
    {
      hide Follows, Sorted, Live, PairFailures, IpFailures, Disciplined;
      seconds := 0.0;
      if who in pair {
        PrunePair(who, now);
        if |pair[who]| >= maxFailures { seconds := pair[who][0] + window - now; }
      }
      FollowsSorted(PairQueue(who), PairFailures(history, who), latest, window, !cleared);
    }

    /** The same for the address. */
    method CheckIp(a: string, now: real) returns (seconds: real)
      requires Valid() && now == latest
      modifies `ip
      ensures Valid() && (old(Disciplined()) ==> Disciplined())
      ensures HoldsFor(IpQueue(a), ipMaxFailures, now, window, seconds)
    {
      hide Follows, Sorted, Live, PairFailures, IpFailures, Disciplined;
      seconds := 0.0;
      if a in ip {
        PruneIp(a, now);
        if |ip[a]| >= ipMaxFailures { seconds := ip[a][0] + window - now; }
      }
      FollowsSorted(IpQueue(a), IpFailures(history, a), latest, window, true);
    }

    /** Whole seconds until this attempt would be allowed; 0 means now. It refuses only what the reference
        refuses, and exactly that unless the table of pairs was cleared. The wait is the least number of
        whole seconds after which it could be allowed, and enough when no count is beyond its limit. */
    method BlockedFor(a: string, username: string, now: real) returns (wait: nat)
      requires Valid() && now >= latest
      modifies `pair, `ip, `latest
      ensures Valid() && latest == now
      ensures old(Disciplined()) ==> Disciplined()
      ensures wait > 0 ==> ReferenceRefuses(Who(a, Norm(username)), now)
      ensures !cleared ==> (wait > 0 <==> ReferenceRefuses(Who(a, Norm(username)), now))
      ensures wait > 0 <==> Refuses(Who(a, Norm(username)), now)
      ensures wait > 0 ==> forall t :: now <= t <= now + (wait - 1) as real ==> Refuses(Who(a, Norm(username)), t)
      ensures Disciplined() ==> !Refuses(Who(a, Norm(username)), now + wait as real)
    {
      hide Valid, Disciplined, Refuses, ReferenceRefuses, HoldsFor, Norm;
      var who := Who(a, Norm(username));
      Advance(now);
      var first := CheckPair(who, now);
      var second := CheckIp(a, now);
      var seconds := if first >= second then first else second;
      CeilMeans(seconds);
      var whole := if seconds > 0.0 then Ceil(seconds) else 0;
      Conclude(who, now, first, second, whole);
      wait := whole;
    }

    /** Note a failed attempt, and collect garbage when there are many pairs. */
    method RecordFailure(a: string, username: string, now: real)
      requires Valid() && now >= latest
      modifies `pair, `ip, `latest, `history, `cleared
      ensures Valid() && latest == now && history == old(history) + [Failure(Who(a, Norm(username)), now)]
      ensures old(Disciplined()) && !old(Refuses(Who(a, Norm(username)), now)) ==> Disciplined()
      ensures old(cleared) ==> cleared
      ensures var who := Who(a, Norm(username));
              cleared && !old(cleared) ==>
                |Collected(old(pair)[who := old(PairQueue(who)) + [now]], now, window)| > 50000
      ensures |pair| <= 50000
      ensures var noted := old(pair)[Who(a, Norm(username)) := old(PairQueue(Who(a, Norm(username)))) + [now]];
              pair == if |noted| <= 10000 then noted
                      else if |Collected(noted, now, window)| <= 50000 then Collected(noted, now, window)
                      else map[]
    {
      hide Valid, Disciplined, Norm, Refuses;
      var who := Who(a, Norm(username));
      Append(who, now);
      if |pair| > GC_THRESHOLD {
        Collect(now);
      }
    }

    method Append(who: Who, now: real)
      requires Valid() && now >= latest
      modifies `pair, `ip, `latest, `history
      ensures Valid() && latest == now && history == old(history) + [Failure(who, now)]
      ensures old(Disciplined()) && !old(Refuses(who, now)) ==> Disciplined()
      ensures pair == old(pair)[who := old(PairQueue(who)) + [now]]
    {
      hide Follows, Sorted, Live, PairFailures, IpFailures;
      Advance(now);
      label advanced:
      pair := pair[who := (if who in pair then pair[who] else []) + [now]];
      ip := ip[who.ip := (if who.ip in ip then ip[who.ip] else []) + [now]];
      history := history + [Failure(who, now)];
      forall w
        ensures Sorted(PairFailures(history, w), now)
        ensures Follows(PairQueue(w), PairFailures(history, w), now, window, !cleared)
        ensures |Live(PairQueue(w), now, window)|
             <= old@advanced(|Live(PairQueue(w), now, window)|) + if w == who then 1 else 0
      {
        FailureAdds(old(history), who, now, w);
        FailureAdded(old@advanced(PairQueue(w)), PairFailures(old(history), w), now, window, !cleared);
      }
      forall b
        ensures Sorted(IpFailures(history, b), now)
        ensures Follows(IpQueue(b), IpFailures(history, b), now, window, true)
        ensures |Live(IpQueue(b), now, window)|
             <= old@advanced(|Live(IpQueue(b), now, window)|) + if b == who.ip then 1 else 0
      {
        FailureAddsIp(old(history), who, now, b);
        FailureAdded(old@advanced(IpQueue(b)), IpFailures(old(history), b), now, window, true);
      }
    }

    /** Prune every queue and drop the empty ones; more than CLEAR_THRESHOLD pairs that still have a recent
        failure mean starting over. */
    method Collect(now: real)
      requires Valid() && now == latest
      modifies `pair, `ip, `cleared
      ensures Valid() && (old(Disciplined()) ==> Disciplined())
      ensures ip == Collected(old(ip), now, window)
      ensures if |Collected(old(pair), now, window)| > 50000 then pair == map[] && cleared
              else pair == Collected(old(pair), now, window) && cleared == old(cleared)
    {
      hide Valid, Disciplined, Live;
      var pairs := pair.Keys;
      while pairs != {}
        invariant Valid() && (old(Disciplined()) ==> Disciplined()) && cleared == old(cleared) && ip == old(ip)
        invariant forall w :: w in pairs ==> w in pair && w in old(pair) && pair[w] == old(pair)[w]
        invariant forall w :: w in pair && w !in pairs ==>
                    w in old(pair) && pair[w] != [] && pair[w] == Live(old(pair)[w], now, window)
        invariant forall w :: w in old(pair) && w !in pair ==> Live(old(pair)[w], now, window) == []
        decreases |pairs|
      {
        var who :| who in pairs;
        pairs := pairs - {who};
        PrunePair(who, now);
        if pair[who] == [] { DropPair(who); }
      }
      assert pair == Collected(old(pair), now, window);
      CollectIps(now);
      if |pair| > CLEAR_THRESHOLD {
        StartOver();
      }
    }

    method CollectIps(now: real)
      requires Valid() && now == latest
      modifies `ip
      ensures Valid() && (old(Disciplined()) ==> Disciplined())
      ensures ip == Collected(old(ip), now, window)
    {
      hide Valid, Disciplined, Live;
      var ips := ip.Keys;
      while ips != {}
        invariant Valid() && (old(Disciplined()) ==> Disciplined())
        invariant forall a :: a in ips ==> a in ip && a in old(ip) && ip[a] == old(ip)[a]
        invariant forall a :: a in ip && a !in ips ==>
                    a in old(ip) && ip[a] != [] && ip[a] == Live(old(ip)[a], now, window)
        invariant forall a :: a in old(ip) && a !in ip ==> Live(old(ip)[a], now, window) == []
        decreases |ips|
      {
        var a :| a in ips;
        ips := ips - {a};
        PruneIp(a, now);
        if ip[a] == [] { DropIp(a); }
      }
    }

    method DropPair(who: Who)
      requires Valid() && who in pair && pair[who] == []
      modifies `pair
      ensures Valid() && (old(Disciplined()) ==> Disciplined()) && pair == old(pair) - {who}
    {
      pair := pair - {who};
      assert forall w :: PairQueue(w) == old(PairQueue(w));
    }

    method DropIp(a: string)
      requires Valid() && a in ip && ip[a] == []
      modifies `ip
      ensures Valid() && (old(Disciplined()) ==> Disciplined()) && ip == old(ip) - {a}
    {
      ip := ip - {a};
      assert forall b :: IpQueue(b) == old(IpQueue(b));
    }

    method StartOver()
      requires Valid()
      modifies `pair, `cleared
      ensures Valid() && (old(Disciplined()) ==> Disciplined()) && pair == map[] && cleared
    {
      pair := map[];
      cleared := true;
    }

    /** A success clears the pair. */
    method RecordSuccess(a: string, username: string)
      requires Valid()
      modifies `pair, `history
      ensures Valid() && history == old(history) + [Success(Who(a, Norm(username)))]
      ensures old(Disciplined()) ==> Disciplined()
      ensures PairFailures(history, Who(a, Norm(username))) == []
    {
      hide Follows, Sorted, Live, PairFailures, IpFailures, Norm;
      var who := Who(a, Norm(username));
      pair := pair - {who};
      history := history + [Success(who)];
      NothingFollows(latest, window, !cleared);
      forall w
        ensures PairFailures(history, w) == if w == who then [] else PairFailures(old(history), w)
        ensures PairQueue(w) == if w == who then [] else old(PairQueue(w))
      {
        SuccessDrops(old(history), who, w);
      }
      forall b
        ensures IpFailures(history, b) == IpFailures(old(history), b)
      {
        SuccessKeeps(old(history), who, b);
      }
    }

    method Forget()
      requires Valid()
      modifies `pair, `ip, `history
      ensures Valid() && Disciplined() && history == old(history) + [Reset]
    {
      pair, ip := map[], map[];
      history := history + [Reset];
      assert history[..|history| - 1] == old(history);
    }

    lemma Conclude(who: Who, now: real, first: real, second: real, wait: int)
      requires Valid() && latest == now
      requires HoldsFor(PairQueue(who), maxFailures, now, window, first)
      requires HoldsFor(IpQueue(who.ip), ipMaxFailures, now, window, second)
      requires var seconds := if first >= second then first else second;
               if seconds > 0.0 then (wait - 1) as real < seconds <= wait as real else wait == 0
      ensures wait >= 0
      ensures wait > 0 ==> ReferenceRefuses(who, now)
      ensures !cleared ==> (wait > 0 <==> ReferenceRefuses(who, now))
      ensures wait > 0 <==> Refuses(who, now)
      ensures wait > 0 ==> forall t :: now <= t <= now + (wait - 1) as real ==> Refuses(who, t)
      ensures Disciplined() ==> !Refuses(who, now + wait as real)
    {
      hide Follows, Sorted, Live, PairFailures, IpFailures;
      var p, q := PairQueue(who), IpQueue(who.ip);
      WaitIsRight(p, q, maxFailures, ipMaxFailures, now, window, first, second, wait);
      FollowsLive(p, PairFailures(history, who), latest, window, !cleared, now);
      FollowsLive(q, IpFailures(history, who.ip), latest, window, true, now);
      AllLive(p, now, window);
      AllLive(q, now, window);
    }
  }

  lemma {:induction false} FailureAdds(history: seq<Entry>, who: Who, now: real, w: Who)
    ensures PairFailures(history + [Failure(who, now)], w)
            == if w == who then PairFailures(history, w) + [now] else PairFailures(history, w)
  {
    assert (history + [Failure(who, now)])[..|history|] == history;
  }

  lemma {:induction false} FailureAddsIp(history: seq<Entry>, who: Who, now: real, a: string)
    ensures IpFailures(history + [Failure(who, now)], a)
            == if a == who.ip then IpFailures(history, a) + [now] else IpFailures(history, a)
  {
    assert (history + [Failure(who, now)])[..|history|] == history;
  }

  lemma {:induction false} SuccessDrops(history: seq<Entry>, who: Who, w: Who)
    ensures PairFailures(history + [Success(who)], w) == if w == who then [] else PairFailures(history, w)
  {
    assert (history + [Success(who)])[..|history|] == history;
  }

  lemma {:induction false} SuccessKeeps(history: seq<Entry>, who: Who, a: string)
    ensures IpFailures(history + [Success(who)], a) == IpFailures(history, a)
  {
    assert (history + [Success(who)])[..|history|] == history;
  }

  lemma {:induction false} NothingFollows(latest: real, window: real, exact: bool)
    ensures Follows([], [], latest, window, exact) && Sorted([], latest) && Live([], latest, window) == []
  {
  }

  /** One more failure, now, on both sides. */
  lemma {:induction false} FailureAdded(queue: seq<real>, full: seq<real>, now: real, window: real, exact: bool)
    requires Follows(queue, full, now, window, exact) && Sorted(full, now)
    ensures Follows(queue + [now], full + [now], now, window, exact) && Sorted(full + [now], now)
    ensures |Live(queue + [now], now, window)| <= |Live(queue, now, window)| + 1
  {
    assert (queue + [now])[..|queue|] == queue;
  }

  /** Every entry is younger than the window. */
  predicate AllYoung(queue: seq<real>, now: real, window: real) {
    forall i :: 0 <= i < |queue| ==> now - queue[i] < window
  }

  lemma {:induction false} YoungPruned(queue: seq<real>, pruned: seq<real>, full: seq<real>, latest: real,
                                       window: real, exact: bool, now: real)
    requires Follows(queue, full, latest, window, exact) && now >= latest && Sorted(full, latest)
    requires |pruned| <= |queue| && pruned == queue[|queue| - |pruned|..]
    requires forall i :: 0 <= i < |queue| - |pruned| ==> now - queue[i] >= window
    requires AllYoung(pruned, now, window)
    ensures Follows(pruned, full, now, window, exact)
    ensures |Live(pruned, now, window)| <= |Live(queue, latest, window)|
  {
    PruneFollows(queue, pruned, full, latest, window, exact, now);
    FollowsSorted(queue, full, latest, window, exact);
    LiveLater(queue, latest, latest, now, window);
    assert queue == queue[..|queue| - |pruned|] + pruned;
    LiveDrops(queue[..|queue| - |pruned|], pruned, now, window);
  }

  lemma FollowsSorted(queue: seq<real>, full: seq<real>, latest: real, window: real, exact: bool)
    requires Follows(queue, full, latest, window, exact) && Sorted(full, latest)
    ensures Sorted(queue, latest) && NonDecreasing(queue)
  {
    var k := |full| - |queue|;
    assert forall i :: 0 <= i < |queue| ==> queue[i] == full[k + i];
  }

  lemma {:induction false} FollowsLater(queue: seq<real>, full: seq<real>, latest: real, window: real, exact: bool,
                                        now: real)
    requires Follows(queue, full, latest, window, exact) && Sorted(full, latest) && now >= latest
    ensures Follows(queue, full, now, window, exact) && Sorted(full, now)
    ensures |Live(queue, now, window)| <= |Live(queue, latest, window)|
  {
    FollowsSorted(queue, full, latest, window, exact);
    LiveLater(queue, latest, latest, now, window);
  }

  /** The queue (all of it live) makes an attempt wait `seconds`: none when it is below its limit, else
      until its oldest entry expires. */
  ghost predicate HoldsFor(queue: seq<real>, limit: nat, now: real, window: real, seconds: real) {
    && limit >= 1
    && AllYoung(queue, now, window)
    && NonDecreasing(queue)
    && seconds == if |queue| >= limit then queue[0] + window - now else 0.0
  }

  /** A queue at its limit stays there until its oldest entry expires. */
  lemma {:induction false} HoldsUntil(queue: seq<real>, limit: nat, now: real, window: real, seconds: real, t: real)
    requires HoldsFor(queue, limit, now, window, seconds) && now <= t
    ensures seconds > 0.0 <==> |Live(queue, now, window)| >= limit
    ensures t < now + seconds ==> |Live(queue, t, window)| >= limit
    ensures |queue| <= limit && t >= now + seconds ==> |Live(queue, t, window)| < limit
  {
    AllLive(queue, now, window);
    if t < now + seconds {
      AllLive(queue, t, window);
    } else if queue != [] && seconds > 0.0 && |queue| <= limit {
      var k := FirstLive(queue, t, window);
      LiveFrom(queue, k, t, window);
      assert now - queue[0] < window;
      assert t - queue[0] >= window;
    } else {
      LiveLater(queue, if queue == [] then now else queue[|queue| - 1], now, t, window);
    }
  }

  /** With no further failures, the queue falls below its limit exactly when its limit-th youngest entry
      has expired. */
  lemma {:induction false} FreedExactly(queue: seq<real>, limit: nat, now: real, window: real, t: real)
    requires AllYoung(queue, now, window) && NonDecreasing(queue) && limit >= 1 && now <= t
    ensures |Live(queue, t, window)| < limit <==> |queue| < limit || t - queue[|queue| - limit] >= window
  {
    var k := FirstLive(queue, t, window);
    LiveFrom(queue, k, t, window);
  }

  /** Without the discipline of check-then-record the wait is enough exactly when, in each queue beyond
      its limit, that entry has expired by then too. */
  lemma WaitSufficesExactly(pair: seq<real>, ip: seq<real>, limit: nat, ipLimit: nat, now: real,
                            window: real, wait: nat)
    requires AllYoung(pair, now, window) && NonDecreasing(pair) && limit >= 1
    requires AllYoung(ip, now, window) && NonDecreasing(ip) && ipLimit >= 1
    ensures !Refused(pair, ip, limit, ipLimit, now + wait as real, window) <==>
              && (|pair| < limit || now + wait as real - pair[|pair| - limit] >= window)
              && (|ip| < ipLimit || now + wait as real - ip[|ip| - ipLimit] >= window)
  {
    FreedExactly(pair, limit, now, window, now + wait as real);
    FreedExactly(ip, ipLimit, now, window, now + wait as real);
  }

  /** The wait is minimal in whole seconds, and sufficient when no count is beyond its limit. */
  lemma WaitIsRight(pair: seq<real>, ip: seq<real>, limit: nat, ipLimit: nat, now: real, window: real,
                    first: real, second: real, wait: int)
    requires HoldsFor(pair, limit, now, window, first) && HoldsFor(ip, ipLimit, now, window, second)
    requires var seconds := if first >= second then first else second;
             if seconds > 0.0 then (wait - 1) as real < seconds <= wait as real else wait == 0
    ensures wait >= 0
    ensures wait > 0 <==> Refused(pair, ip, limit, ipLimit, now, window)
    ensures wait > 0 ==>
              forall t :: now <= t <= now + (wait - 1) as real ==> Refused(pair, ip, limit, ipLimit, t, window)
    ensures |pair| <= limit && |ip| <= ipLimit ==> !Refused(pair, ip, limit, ipLimit, now + wait as real, window)
  {
    HoldsUntil(pair, limit, now, window, first, now);
    HoldsUntil(ip, ipLimit, now, window, second, now);
    assert wait >= 0;
    HoldsUntil(pair, limit, now, window, first, now + wait as real);
    HoldsUntil(ip, ipLimit, now, window, second, now + wait as real);
    forall t | wait > 0 && now <= t <= now + (wait - 1) as real ensures Refused(pair, ip, limit, ipLimit, t, window) {
      HoldsUntil(pair, limit, now, window, first, t);
      HoldsUntil(ip, ipLimit, now, window, second, t);
    }
  }
}
