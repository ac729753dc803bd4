/** The agent's rate limiter: a token bucket over exact real time, and what it guarantees about the
    acquisitions in every window. */
module TokenBucket {
  import opened Rows

  // ---- The reference: windows of granted acquisitions --------------------------------------------

  /** What `n` grants since `start` leave at time `t`. */
  function Left(capacity: real, rate: real, start: real, n: int, t: real): real {
    capacity + rate * (t - start) - n as real
  }

  lemma OneLess(capacity: real, rate: real, start: real, n: int, t: real)
    ensures Left(capacity, rate, start, n + 1, t) == Left(capacity, rate, start, n, t) - 1.0
    ensures Left(capacity, rate, t, 1, t) == capacity - 1.0
  {
  }

  /** How many grants the window from grant `i` on may still take at time `t`. */
  ghost function Slack(capacity: real, rate: real, grants: seq<real>, i: nat, t: real): real
    requires i < |grants|
  {
    Left(capacity, rate, grants[i], |grants| - i, t)
  }

  /** Granting once more at `t` exceeds no window. */
  ghost predicate Fits(capacity: real, rate: real, grants: seq<real>, t: real) {
    forall i :: 0 <= i < |grants| ==> Slack(capacity, rate, grants, i, t) >= 1.0
  }

  /** Any n grants spanning time T satisfy n <= capacity + rate * T. */
  ghost predicate Bounded(capacity: real, rate: real, grants: seq<real>) {
    forall i, j :: 0 <= i <= j < |grants| ==> Left(capacity, rate, grants[i], j - i + 1, grants[j]) >= 0.0
  }

  /** `tokens` is the least slack of any window, and at most the capacity. */
  ghost predicate Level(capacity: real, rate: real, grants: seq<real>, tokens: real, t: real) {
    && tokens <= capacity
    && (forall i :: 0 <= i < |grants| ==> tokens <= Slack(capacity, rate, grants, i, t))
    && (tokens == capacity || exists i :: 0 <= i < |grants| && tokens == Slack(capacity, rate, grants, i, t))
  }

  lemma Spread(rate: real, a: real, b: real, c: real)
    ensures rate * (c - a) == rate * (b - a) + rate * (c - b)
  {
    assert c - a == (b - a) + (c - b);
  }

  lemma NonNegative(rate: real, d: real)
    requires rate >= 0.0 && d >= 0.0
    ensures rate * d >= 0.0
  {
  }

  /** Time adds the same amount to every slack. */
  lemma SlackGrows(capacity: real, rate: real, grants: seq<real>, i: nat, t: real, u: real)
    requires i < |grants|
    ensures Slack(capacity, rate, grants, i, u) == Slack(capacity, rate, grants, i, t) + rate * (u - t)
  {
    Spread(rate, grants[i], t, u);
  }

  /** Refilling keeps the level. */
  lemma RefillLevel(capacity: real, rate: real, grants: seq<real>, tokens: real, t: real, u: real)
    requires Level(capacity, rate, grants, tokens, t) && rate > 0.0 && u >= t
    ensures Level(capacity, rate, grants, Refilled(capacity, rate, tokens, u - t), u)
  {
    var d := u - t;
    var gain := d * rate;
    NonNegative(rate, d);
    assert rate * d == gain;
    var after := MinReal(capacity, tokens + gain);
    forall i | 0 <= i < |grants| ensures Slack(capacity, rate, grants, i, u) == Slack(capacity, rate, grants, i, t) + gain {
      SlackGrows(capacity, rate, grants, i, t, u);
    }
    if tokens != capacity && after != capacity {
      var i :| 0 <= i < |grants| && tokens == Slack(capacity, rate, grants, i, t);
      assert after == Slack(capacity, rate, grants, i, u);
    }
  }

  /** Taking a token keeps the level, with the new grant in the history. */
  lemma GrantLevel(capacity: real, rate: real, grants: seq<real>, tokens: real, t: real)
    requires Level(capacity, rate, grants, tokens, t)
    ensures Level(capacity, rate, grants + [t], tokens - 1.0, t)
  {
    var after := grants + [t];
    forall i | 0 <= i < |grants|
      ensures Slack(capacity, rate, after, i, t) == Slack(capacity, rate, grants, i, t) - 1.0
    {
      assert after[i] == grants[i];
      OneLess(capacity, rate, grants[i], |grants| - i, t);
    }
    OneLess(capacity, rate, t, 0, t);
    assert Slack(capacity, rate, after, |grants|, t) == capacity - 1.0;
    if tokens != capacity {
      var i :| 0 <= i < |grants| && tokens == Slack(capacity, rate, grants, i, t);
      assert tokens - 1.0 == Slack(capacity, rate, after, i, t);
    }
  }

  /** A token is there exactly when one more grant exceeds no window. */
  lemma TokenMeansFits(capacity: real, rate: real, grants: seq<real>, tokens: real, t: real)
    requires Level(capacity, rate, grants, tokens, t) && capacity >= 1.0
    ensures tokens >= 1.0 <==> Fits(capacity, rate, grants, t)
  {
  }

  /** A grant that fits keeps every window bounded. */
  lemma GrantBounded(capacity: real, rate: real, grants: seq<real>, t: real)
    requires Bounded(capacity, rate, grants) && Fits(capacity, rate, grants, t) && capacity >= 1.0
    ensures Bounded(capacity, rate, grants + [t])
  {
    var after := grants + [t];
    forall i, j | 0 <= i <= j < |after|
      ensures Left(capacity, rate, after[i], j - i + 1, after[j]) >= 0.0
    {
      if j < |grants| {
        assert after[j] == grants[j] && after[i] == grants[i];
      } else if i < |grants| {
        assert Slack(capacity, rate, grants, i, t) >= 1.0;
        OneLess(capacity, rate, grants[i], |grants| - i, t);
      } else {
        OneLess(capacity, rate, t, 0, t);
      }
    }
  }

  lemma BoundedMeans(capacity: real, rate: real, grants: seq<real>)
    requires Bounded(capacity, rate, grants)
    ensures forall i, j :: 0 <= i <= j < |grants| ==>
              (j - i + 1) as real <= capacity + rate * (grants[j] - grants[i])
  {
    forall i, j | 0 <= i <= j < |grants|
      ensures (j - i + 1) as real <= capacity + rate * (grants[j] - grants[i])
    {
      assert Left(capacity, rate, grants[i], j - i + 1, grants[j]) >= 0.0;
    }
  }

  /** The time to sleep fills the bucket up to one token, and no shorter time does. */
  lemma SleepFills(rate: real, tokens: real, d: real)
    requires rate > 0.0 && 0.0 <= tokens < 1.0
    ensures (1.0 - tokens) / rate > 0.0
    ensures tokens + d * rate >= 1.0 <==> d >= (1.0 - tokens) / rate
  {
    var full := (1.0 - tokens) / rate;
    assert full * rate == 1.0 - tokens;
    if d >= full {
      NonNegative(rate, d - full);
      assert d * rate == full * rate + rate * (d - full);
    } else {
      assert rate * (full - d) > 0.0;
      assert d * rate == full * rate - rate * (full - d);
    }
  }

  lemma RefillStays(capacity: real, rate: real, tokens: real, d: real)
    requires 0.0 <= tokens <= capacity && rate > 0.0 && d >= 0.0
    ensures 0.0 <= Refilled(capacity, rate, tokens, d) <= capacity
  {
    NonNegative(rate, d);
    assert d * rate == rate * d;
  }

  // ---- The limiter -------------------------------------------------------------------------------

  class AsyncRateLimiter {
    const rate: real
    const capacity: real
    var tokens: real
    var updated: real
    ghost var grants: seq<real>

    ghost predicate Valid()
      reads this
    {
      && capacity == MaxReal(1.0, rate)
      && (rate > 0.0 ==>
            && 0.0 <= tokens <= capacity
            && Level(capacity, rate, grants, tokens, updated) && Bounded(capacity, rate, grants))
    }

    constructor (ratePerSec: Option<real>, now: real)
      ensures Valid() && grants == [] && updated == now
      ensures rate == if ratePerSec.Some? then ratePerSec.value else 0.0
    {
      var r := if ratePerSec.Some? then ratePerSec.value else 0.0;
      rate := r;
      capacity := MaxReal(1.0, r);
      tokens := MaxReal(1.0, r);
      updated := now;
      grants := [];
    }

    method Refill(now: real)
      requires Valid() && rate > 0.0 && now >= updated
      modifies `tokens, `updated
      ensures Valid() && updated == now
      ensures tokens == Refilled(capacity, rate, old(tokens), now - old(updated))
    {
      hide Level, Bounded;
      var d := now - updated;
      RefillLevel(capacity, rate, grants, tokens, updated, now);
      RefillStays(capacity, rate, tokens, d);
      ghost var filled := Refilled(capacity, rate, tokens, d);
      tokens := MinReal(capacity, tokens + d * rate);
      updated := now;
      assert tokens == filled;
    }

    /** Wait for a token. `first` is the clock at the call; the k-th sleep ends `late(k)` after its time.
        The grant comes at once exactly when it exceeds no window; otherwise after one sleep, whose
        planned end is the earliest moment that exceeds none. No rate means no limit. With one, whatever
        the calls and delays so far, any n grants spanning time T satisfy n <= capacity + rate * T. */
    method Acquire(first: real, late: nat -> real) returns (when: real, sleeps: nat)
      requires Valid() && first >= updated && forall k :: late(k) >= 0.0
      modifies this
      ensures Valid()
      ensures rate <= 0.0 ==> when == first && sleeps == 0 && grants == old(grants)
      ensures rate > 0.0 ==>
                forall i, j :: 0 <= i <= j < |grants| ==>
                  (j - i + 1) as real <= capacity + rate * (grants[j] - grants[i])
      ensures rate > 0.0 ==>
                && grants == old(grants) + [when] && updated == when && sleeps <= 1
                && (sleeps == 0 <==> Fits(capacity, rate, old(grants), first))
                && (sleeps == 0 ==> when == first)
                && (sleeps == 1 ==> Earliest(capacity, rate, old(grants), first, when - late(0)))
    {
      hide Level, Bounded, Fits, Earliest;
      when, sleeps := first, 0;
      if rate <= 0.0 { return; }
      ghost var planned := first;
      while true
        invariant Valid() && when >= updated && grants == old(grants)
        invariant sleeps == 0 ==> when == first
        invariant sleeps > 0 ==>
                    && sleeps == 1 && Refilled(capacity, rate, tokens, when - updated) >= 1.0 && !Fits(capacity, rate, grants, first)
                    && when == planned + late(0) && Earliest(capacity, rate, grants, first, planned)
        decreases 1 - sleeps
      {
        Refill(when);
        TokenMeansFits(capacity, rate, grants, tokens, when);
        if tokens >= 1.0 {
          GrantLevel(capacity, rate, grants, tokens, when);
          GrantBounded(capacity, rate, grants, when);
          tokens := tokens - 1.0;
          grants := grants + [when];
          BoundedMeans(capacity, rate, grants);
          return;
        }
        var pause := (1.0 - tokens) / rate;
        PlannedIsEarliest(capacity, rate, grants, tokens, when, when + pause);
        SleepFills(rate, tokens, pause + late(sleeps));
        planned := when + pause;
        when := when + pause + late(sleeps);
        sleeps := sleeps + 1;
      }
    }
  }

  /** A grant fits at `planned`, and at no time between `t` and then. */
  ghost predicate Earliest(capacity: real, rate: real, grants: seq<real>, t: real, planned: real) {
    && t < planned && Fits(capacity, rate, grants, planned)
    && forall u :: t <= u < planned ==> !Fits(capacity, rate, grants, u)
  }

  function Refilled(capacity: real, rate: real, tokens: real, d: real): real {
    MinReal(capacity, tokens + d * rate)
  }

  /** Sleeping the missing fraction of a token ends at the first moment a grant fits. */
  lemma PlannedIsEarliest(capacity: real, rate: real, grants: seq<real>, tokens: real, t: real,
                          planned: real)
    requires Level(capacity, rate, grants, tokens, t) && rate > 0.0 && 0.0 <= tokens < 1.0 && capacity >= 1.0
    requires planned == t + (1.0 - tokens) / rate
    ensures Earliest(capacity, rate, grants, t, planned)
  {
    SleepFills(rate, tokens, planned - t);
    RefillLevel(capacity, rate, grants, tokens, t, planned);
    TokenMeansFits(capacity, rate, grants, Refilled(capacity, rate, tokens, planned - t), planned);
    forall u | t <= u < planned ensures !Fits(capacity, rate, grants, u) {
      SleepFills(rate, tokens, u - t);
      RefillLevel(capacity, rate, grants, tokens, t, u);
      TokenMeansFits(capacity, rate, grants, Refilled(capacity, rate, tokens, u - t), u);
    }
  }
}
