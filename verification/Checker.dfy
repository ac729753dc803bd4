/** Checking one identifier: retries of transient answers with exponential backoff, and how the answer
    that counts is classified. */
module Checker {
  import opened Rows
  import opened Runner

  /** A transport error or timeout, or an HTTP status with the seconds of a Retry-After header (None
      when absent or not a number of seconds). */
  datatype Response = TransportError | Status(code: int, retryAfter: Option<real>)

  /** What the metadata probe found: it raised (a network error, or another), nothing, or a video. */
  datatype Probe = Raised(network: bool) | Nothing | Video

  datatype Settings = Settings(maxRetries: nat, base: real, cap: real)
  {
    predicate Valid() { base >= 0.0 && cap >= 0.0 }
  }

  /** Too many requests, section 4 of RFC 6585. */
  const TOO_MANY_REQUESTS := 429

  // ---- The specification -------------------------------------------------------------------------

  predicate Transient(r: Response) {
    r.TransportError? || r.code == TOO_MANY_REQUESTS || r.code >= 500
  }

  /** Which response decides: the first that is not transient, or the last one allowed. */
  function Decisive(responses: nat -> Response, start: nat, last: nat): (n: nat)
    requires start <= last
    ensures start <= n <= last
    ensures forall k :: start <= k < n ==> Transient(responses(k))
    ensures n < last ==> !Transient(responses(n))
    decreases last - start
  {
    if start < last && Transient(responses(start)) then Decisive(responses, start + 1, last) else start
  }

  /** What an answer means. */
  function Meaning(r: Response, probe: Probe): ItemStatus {
    if r.TransportError? then ItemStatus.RetryWait
    else if r.code == TOO_MANY_REQUESTS then ItemStatus.RateLimited
    else if r.code >= 500 then ItemStatus.RetryWait
    else if r.code == 401 || r.code == 403 then ItemStatus.Forbidden
    else if r.code != 200 then ItemStatus.NotFound
    else match probe
      case Raised(network) => if network then ItemStatus.RetryWait else ItemStatus.NotFound
      case Nothing => ItemStatus.NotFound
      case Video => ItemStatus.Found
  }

  function Pow2(k: nat): real {
    if k == 0 then 1.0 else 2.0 * Pow2(k - 1)
  }

  /** The backoff without its random part. */
  function Delay(settings: Settings, k: nat): real {
    MinReal(settings.cap, settings.base * Pow2(k))
  }

  /** A positive Retry-After replaces the backoff; zero, negative or unusable ones do not. */
  predicate Obeys(r: Response) {
    r.Status? && r.code == TOO_MANY_REQUESTS && r.retryAfter.Some? && r.retryAfter.value > 0.0
  }

  function Pause(settings: Settings, r: Response, k: nat, jitter: real): real {
    if Obeys(r) then r.retryAfter.value else Delay(settings, k) + jitter
  }

  /** The pauses after the first `n` responses. */
  function Pauses(settings: Settings, responses: nat -> Response, jitter: nat -> real, n: nat): real {
    if n == 0 then 0.0
    else Pauses(settings, responses, jitter, n - 1) + Pause(settings, responses(n - 1), n - 1, jitter(n - 1))
  }

  /** The sum of min(cap, base * 2^k) + base over the first `n` attempts. */
  function Budget(settings: Settings, n: nat): real {
    if n == 0 then 0.0 else Budget(settings, n - 1) + Delay(settings, n - 1) + settings.base
  }

  lemma {:induction false} PausesBounded(settings: Settings, responses: nat -> Response, jitter: nat -> real, n: nat)
    requires forall k :: jitter(k) <= settings.base
    requires forall k :: 0 <= k < n ==> !Obeys(responses(k))
    ensures Pauses(settings, responses, jitter, n) <= Budget(settings, n)
  {
    if n > 0 { PausesBounded(settings, responses, jitter, n - 1); }
  }

  lemma {:induction false} BudgetGrows(settings: Settings, n: nat, m: nat)
    requires settings.Valid() && n <= m
    ensures Budget(settings, n) <= Budget(settings, m)
  {
    if n < m {
      BudgetGrows(settings, n, m - 1);
      PowPositive(m - 1);
      ProductNonNegative(settings.base, Pow2(m - 1));
    }
  }

  lemma DecisiveStep(responses: nat -> Response, n: nat, last: nat)
    requires n <= last
    ensures n == last || !Transient(responses(n)) ==> Decisive(responses, n, last) == n
    ensures n < last && Transient(responses(n)) ==> Decisive(responses, n, last) == Decisive(responses, n + 1, last)
  {
  }

  lemma PausesStep(settings: Settings, responses: nat -> Response, jitter: nat -> real, n: nat)
    ensures Pauses(settings, responses, jitter, 0) == 0.0
    ensures Pauses(settings, responses, jitter, n + 1)
            == Pauses(settings, responses, jitter, n) + Pause(settings, responses(n), n, jitter(n))
  {
  }

  lemma {:induction false} BudgetHolds(settings: Settings, responses: nat -> Response, jitter: nat -> real, n: nat)
    requires settings.Valid() && n <= settings.maxRetries
    requires forall k :: jitter(k) <= settings.base
    ensures (forall k :: 0 <= k < n ==> !Obeys(responses(k))) ==>
              Pauses(settings, responses, jitter, n) <= Budget(settings, settings.maxRetries)
  {
    if forall k :: 0 <= k < n ==> !Obeys(responses(k)) {
      PausesBounded(settings, responses, jitter, n);
      BudgetGrows(settings, n, settings.maxRetries);
    }
  }

  lemma {:induction false} PowPositive(k: nat)
    ensures Pow2(k) >= 1.0
  {
    if k > 0 { PowPositive(k - 1); }
  }

  lemma ProductNonNegative(a: real, b: real)
    requires a >= 0.0 && b >= 0.0
    ensures a * b >= 0.0
  {
  }

  /** Each backoff is twice the one before it, from the base up to the cap. */
  lemma DelaysDouble(settings: Settings, k: nat)
    requires settings.Valid()
    ensures Delay(settings, 0) == MinReal(settings.base, settings.cap)
    ensures Delay(settings, k + 1) == MinReal(2.0 * Delay(settings, k), settings.cap)
  {
    PowPositive(k);
    ProductNonNegative(settings.base, Pow2(k));
    assert settings.base * Pow2(k + 1) == 2.0 * (settings.base * Pow2(k));
  }

  // ---- What a reader of the answers sees ---------------------------------------------------------

  /** The server, or the way to it, may do better next time. */
  predicate MayRecover(r: Response) {
    match r
    case TransportError => true
    case Status(code, _) => code == 429 || 500 <= code
  }

  /** What the last answer received and the metadata say of the video. */
  predicate Says(r: Response, probe: Probe, status: ItemStatus) {
    match status
    case Found => r.Status? && r.code == 200 && probe == Video
    case Forbidden => r.Status? && (r.code == 401 || r.code == 403)
    case RateLimited => r.Status? && r.code == 429
    case RetryWait => r.TransportError? || 500 <= r.code || (r.code == 200 && probe == Raised(true))
    case NotFound => r.Status? && r.code < 500 && r.code !in {401, 403, 429} && (r.code == 200 ==> probe in {Raised(false), Nothing})
    case _ => false
  }

  /** The check stops at the first answer that cannot recover, or when the retries are used up. */
  predicate StopsAfter(responses: nat -> Response, requests: nat, maxRetries: nat) {
    && 1 <= requests <= maxRetries + 1
    && (forall k: nat :: k < requests - 1 ==> MayRecover(responses(k)))
    && (requests <= maxRetries ==> !MayRecover(responses(requests - 1)))
  }

  /** The pause after one answer: exactly what a 429 asks for in a positive Retry-After, otherwise the
      backoff and at most one base more. */
  predicate Waited(settings: Settings, r: Response, k: nat, pause: real) {
    match r
    case Status(429, Some(seconds)) =>
      if seconds > 0.0 then pause == seconds else Delay(settings, k) <= pause <= Delay(settings, k) + settings.base
    case _ => Delay(settings, k) <= pause <= Delay(settings, k) + settings.base
  }

  lemma PausesAreWaited(settings: Settings, r: Response, k: nat, jitter: real)
    requires 0.0 <= jitter <= settings.base
    ensures Waited(settings, r, k, Pause(settings, r, k, jitter))
  {
  }

  /** The answer is what the deciding response says, and the number of requests what the answers ask for. */
  lemma {:induction false} MeaningSays(responses: nat -> Response, last: nat, probe: Probe)
    ensures var n := Decisive(responses, 0, last);
            Says(responses(n), probe, Meaning(responses(n), probe)) && StopsAfter(responses, n + 1, last)
  {
  }

  // ---- The loop ----------------------------------------------------------------------------------

  method Backoff(settings: Settings, attempt: nat, jitter: real) returns (seconds: real)
    ensures seconds == Delay(settings, attempt) + jitter
  {
    var factor := 1.0;
    var i := 0;
    while i < attempt
      invariant 0 <= i <= attempt && factor == Pow2(i)
    {
      factor := 2.0 * factor;
      i := i + 1;
    }
    assert factor == Pow2(attempt);
    seconds := MinReal(settings.cap, settings.base * factor) + jitter;
  }

  /** Request until an answer is not transient or the retries are used up. `responses(k)` answers the
      k-th request, `jitter(k)` is the random part of the k-th backoff. At most maxRetries + 1 requests are
      made, the deciding answer is classified, and without a usable positive Retry-After the total pause is
      at most the sum of min(cap, base * 2^k) + base. */
  method Check(settings: Settings, responses: nat -> Response, jitter: nat -> real, probe: Probe)
    returns (status: ItemStatus, requests: nat, slept: real)
    requires settings.Valid() && forall k :: 0.0 <= jitter(k) <= settings.base
    ensures requests == Decisive(responses, 0, settings.maxRetries) + 1 <= settings.maxRetries + 1
    ensures status == Meaning(responses(requests - 1), probe)
    ensures StopsAfter(responses, requests, settings.maxRetries) && Says(responses(requests - 1), probe, status)
    ensures slept == Pauses(settings, responses, jitter, requests - 1)
    ensures (forall k :: 0 <= k < requests - 1 ==> !Obeys(responses(k))) ==> slept <= Budget(settings, settings.maxRetries)
    ensures Checked(status)
  {
    hide Budget, Delay, Pow2, Decisive, Pauses;
    PausesStep(settings, responses, jitter, 0);
    var attempt := 0;
    slept := 0.0;
    status := ItemStatus.NotFound;
    while true
      invariant attempt <= settings.maxRetries
      invariant Decisive(responses, attempt, settings.maxRetries) == Decisive(responses, 0, settings.maxRetries)
      invariant slept == Pauses(settings, responses, jitter, attempt)
      decreases settings.maxRetries - attempt
    {
      var resp := responses(attempt);
      requests := attempt + 1;
      DecisiveStep(responses, attempt, settings.maxRetries);
      PausesStep(settings, responses, jitter, attempt);
      var pause;
      if resp.TransportError? {
        status := ItemStatus.RetryWait;
        if attempt >= settings.maxRetries { break; }
        pause := Backoff(settings, attempt, jitter(attempt));
      } else if resp.code == TOO_MANY_REQUESTS {
        status := ItemStatus.RateLimited;
        if attempt >= settings.maxRetries { break; }
        var after := if resp.retryAfter.None? then 0.0 else if resp.retryAfter.value < 0.0 then 0.0 else resp.retryAfter.value;
        if after != 0.0 {
          pause := after;
        } else {
          pause := Backoff(settings, attempt, jitter(attempt));
        }
      } else if resp.code >= 500 {
        status := ItemStatus.RetryWait;
        if attempt >= settings.maxRetries { break; }
        pause := Backoff(settings, attempt, jitter(attempt));
      } else {
        status := Settle(resp.code, probe);
        break;
      }
      slept := slept + pause;
      attempt := attempt + 1;
    }
    BudgetHolds(settings, responses, jitter, attempt);
    MeaningSays(responses, settings.maxRetries, probe);
  }

  /** A status that needs no retry; a page that exists must also yield a stream. */
  method Settle(code: int, probe: Probe) returns (status: ItemStatus)
    requires code != TOO_MANY_REQUESTS && code < 500
    ensures status == Meaning(Status(code, None), probe)
  {
    if code == 401 || code == 403 { return ItemStatus.Forbidden; }
    if code == 404 || code == 410 { return ItemStatus.NotFound; }
    if code != 200 { return ItemStatus.NotFound; }
    match probe
    case Raised(network) =>
      status := if network then ItemStatus.RetryWait else ItemStatus.NotFound;
    case Nothing =>
      status := ItemStatus.NotFound;
    case Video =>
      status := ItemStatus.Found;
  }

  /** The answer is transient exactly when every request allowed was answered so; the agent will ask for
      such an identifier again only through a retry. */
  lemma {:induction false} GivesUpOnlyAfterAll(responses: nat -> Response, last: nat)
    ensures Transient(responses(Decisive(responses, 0, last))) <==> forall k :: 0 <= k <= last ==> Transient(responses(k))
  {
    var n := Decisive(responses, 0, last);
    if forall k :: 0 <= k <= last ==> Transient(responses(k)) {
      assert Transient(responses(n));
    }
  }
}
