/** `_request`: one HTTP call retried with capped exponential backoff. */
module Executor {
  import opened Basics
  import opened World

  const RETRYABLE_HTTP: set<int> := {429, 500, 502, 503, 504}

  /** What `_request` returns: the status and body of the response. */
  datatype Reply = Reply(status: int, body: seq<byte>)

  /**
   * Why `_request` raised: an HTTP error it does not (or may no longer) retry, or the retry
   * budget spent on transport failures, carrying the last one (absent when nothing was tried).
   */
  datatype RequestError =
    | HttpFailure(status: int, body: seq<byte>)
    | Exhausted(lastError: Option<string>)

  function Pow2(k: nat): (r: nat)
    ensures r >= 1
  {
    if k == 0 then 1 else 2 * Pow2(k - 1)
  }

  /** `min(60, 2 ** attempt)`: the sleep before the retry that follows `attempt`. */
  function Backoff(attempt: nat): (d: nat)
    ensures 1 <= d <= 60
  {
    if Pow2(attempt) < 60 then Pow2(attempt) else 60
  }

  lemma {:induction false} Pow2AtLeast64(k: nat)
    requires k >= 6
    ensures Pow2(k) >= 64
  {
    if k > 6 {
      Pow2AtLeast64(k - 1);
    }
  }

  /** The schedule is 1, 2, 4, 8, 16, 32 and then 60 for every later attempt. */
  lemma BackoffSchedule(k: nat)
    ensures k < 6 ==> Backoff(k) == [1, 2, 4, 8, 16, 32][k]
    ensures k >= 6 ==> Backoff(k) == 60
  {
    if k >= 6 {
      Pow2AtLeast64(k);
    }
  }

  /** The sleeps before the retries that follow attempts `from`, ..., `from + n - 1`. */
  function Backoffs(from: nat, n: nat): seq<nat> {
    seq<nat>(n, i requires 0 <= i < n => Backoff(from + i))
  }

  function Repeat(a: Attempt, n: nat): seq<Attempt> {
    seq(n, _ => a)
  }

  /** A failure the loop sleeps on and retries while attempts remain. */
  predicate Transient(a: Answer) {
    a.NetErr? || (a.HttpErr? && a.status in RETRYABLE_HTTP)
  }

  /**
   * The loop of `_request` from attempt number `attempt` on, in world state `s`: every attempt
   * re-sends the same request, a response returns at once, a non-retryable HTTP error raises,
   * and a transient failure sleeps `Backoff(attempt)` and retries while `attempt < maxRetries`.
   */
  function Tries(o: Oracle, req: Attempt, maxRetries: int, attempt: nat, s: Snap): (Result<Reply, RequestError>, Snap)
    requires attempt <= maxRetries
    decreases maxRetries - attempt
  {
    var s1 := AfterSend(o, s, req);
    match o.answer(|s.sent|)
    case Ok(status, body) => (Success(Reply(status, body)), s1)
    case HttpErr(status, body) =>
      if status in RETRYABLE_HTTP && attempt < maxRetries then Tries(o, req, maxRetries, attempt + 1, AfterSleep(s1, Backoff(attempt)))
      else (Failure(HttpFailure(status, body)), s1)
    case NetErr(reason) =>
      if attempt < maxRetries then Tries(o, req, maxRetries, attempt + 1, AfterSleep(s1, Backoff(attempt)))
      else (Failure(Exhausted(Some(reason))), s1)
  }

  /** `_request` as a whole: with a negative retry budget the loop never runs. */
  function Execute(o: Oracle, req: Attempt, maxRetries: int, s: Snap): (Result<Reply, RequestError>, Snap) {
    if maxRetries < 0 then (Failure(Exhausted(None)), s) else Tries(o, req, maxRetries, 0, s)
  }

  /**
   * What the loop from attempt `attempt` does to the world: it makes at least one attempt and
   * at most the ones left, each a copy of the same request; it sleeps the backoff schedule
   * between consecutive attempts and at no other time; it writes no artifact; and its outcome
   * is the settlement of the answer to its last attempt, so that when it raises for exhausted
   * retries it carries that attempt's transport failure.
   */
  ghost predicate CallEffect(o: Oracle, req: Attempt, maxRetries: int, attempt: nat, s: Snap, x: (Result<Reply, RequestError>, Snap)) {
    && |s.sent| < |x.1.sent| <= |s.sent| + maxRetries + 1 - attempt
    && x.1.sent == s.sent + Repeat(req, |x.1.sent| - |s.sent|)
    && x.1.delays == s.delays + Backoffs(attempt, |x.1.sent| - |s.sent| - 1)
    && x.1.artifacts == s.artifacts && x.1.now >= s.now
    && x.0 == Settle(o.answer(|x.1.sent| - 1))
    && (x.0.Failure? && x.0.error.Exhausted? ==> x.0.error.lastError.Some?)
  }

  /** The loop from any attempt has the effect `CallEffect` describes. */
  lemma {:induction false} TriesHasEffect(o: Oracle, req: Attempt, maxRetries: int, attempt: nat, s: Snap)
    requires attempt <= maxRetries
    ensures CallEffect(o, req, maxRetries, attempt, s, Tries(o, req, maxRetries, attempt, s))
    decreases maxRetries - attempt
  {
    if Transient(o.answer(|s.sent|)) && attempt < maxRetries {
      var s2 := AfterSleep(AfterSend(o, s, req), Backoff(attempt));
      assert Tries(o, req, maxRetries, attempt, s) == Tries(o, req, maxRetries, attempt + 1, s2);
      TriesHasEffect(o, req, maxRetries, attempt + 1, s2);
      var x := Tries(o, req, maxRetries, attempt + 1, s2);
      var n := |x.1.sent| - |s2.sent|;
      RepeatCons(req, n);
      BackoffsCons(attempt, n - 1);
    }
  }

  lemma RepeatCons(a: Attempt, n: nat)
    ensures [a] + Repeat(a, n) == Repeat(a, n + 1)
  {
  }

  lemma BackoffsCons(from: nat, n: nat)
    ensures [Backoff(from)] + Backoffs(from + 1, n) == Backoffs(from, n + 1)
  {
  }

  /**
   * `_request` with a negative retry budget raises for exhausted retries with no last error and
   * touches nothing; with any other budget it has the effect `CallEffect` describes, so it
   * never raises that way with no last error.
   */
  lemma ExecuteHasEffect(o: Oracle, req: Attempt, maxRetries: int, s: Snap)
    ensures var x := Execute(o, req, maxRetries, s);
      && (maxRetries < 0 ==> x == (Failure(Exhausted(None)), s))
      && (maxRetries >= 0 ==> CallEffect(o, req, maxRetries, 0, s, x))
      && (x.0 == Failure(Exhausted(None)) <==> maxRetries < 0)
  {
    if maxRetries >= 0 {
      TriesHasEffect(o, req, maxRetries, 0, s);
    }
  }

  /** How an answer that ends the loop is reported. */
  function Settle(a: Answer): Result<Reply, RequestError> {
    match a
    case Ok(status, body) => Success(Reply(status, body))
    case HttpErr(status, body) => Failure(HttpFailure(status, body))
    case NetErr(reason) => Failure(Exhausted(Some(reason)))
  }

  /**
   * The first attempt that is not a transient failure, or else the last attempt allowed,
   * decides the outcome, and no attempt follows it.
   */
  lemma {:induction false} DecidedAt(o: Oracle, req: Attempt, maxRetries: int, attempt: nat, k: nat, s: Snap)
    requires attempt <= k <= maxRetries
    requires forall n :: |s.sent| <= n < |s.sent| + k - attempt ==> Transient(o.answer(n))
    requires k == maxRetries || !Transient(o.answer(|s.sent| + k - attempt))
    ensures var x := Tries(o, req, maxRetries, attempt, s);
      |x.1.sent| == |s.sent| + k - attempt + 1 && x.0 == Settle(o.answer(|s.sent| + k - attempt))
    decreases k - attempt
  {
    if attempt < k {
      assert Transient(o.answer(|s.sent|));
      var s1 := AfterSend(o, s, req);
      var s2 := AfterSleep(s1, Backoff(attempt));
      assert Tries(o, req, maxRetries, attempt, s) == Tries(o, req, maxRetries, attempt + 1, s2);
      DecidedAt(o, req, maxRetries, attempt + 1, k, s2);
    }
  }

  /**
   * If attempts 0..k-1 fail transiently and attempt k gets a response, that response is
   * returned unchanged after exactly k sleeps of the backoff schedule, and no later answer
   * is consumed.
   */
  lemma FirstSuccessReturned(o: Oracle, req: Attempt, maxRetries: int, k: nat, s: Snap)
    requires k <= maxRetries
    requires forall n :: |s.sent| <= n < |s.sent| + k ==> Transient(o.answer(n))
    requires o.answer(|s.sent| + k).Ok?
    ensures var x := Execute(o, req, maxRetries, s);
      && x.0 == Success(Reply(o.answer(|s.sent| + k).status, o.answer(|s.sent| + k).body))
      && x.1.sent == s.sent + Repeat(req, k + 1)
      && x.1.delays == s.delays + Backoffs(0, k)
  {
    DecidedAt(o, req, maxRetries, 0, k, s);
    TriesHasEffect(o, req, maxRetries, 0, s);
  }

  /**
   * An HTTP status outside the retryable set raises at once, carrying that status and body:
   * no sleep follows it and no further attempt is made.
   */
  lemma NonRetryableRaises(o: Oracle, req: Attempt, maxRetries: int, k: nat, s: Snap)
    requires k <= maxRetries
    requires forall n :: |s.sent| <= n < |s.sent| + k ==> Transient(o.answer(n))
    requires o.answer(|s.sent| + k).HttpErr? && o.answer(|s.sent| + k).status !in RETRYABLE_HTTP
    ensures var x := Execute(o, req, maxRetries, s);
      && x.0 == Failure(HttpFailure(o.answer(|s.sent| + k).status, o.answer(|s.sent| + k).body))
      && x.1.sent == s.sent + Repeat(req, k + 1)
      && x.1.delays == s.delays + Backoffs(0, k)
  {
    DecidedAt(o, req, maxRetries, 0, k, s);
    TriesHasEffect(o, req, maxRetries, 0, s);
  }

  /**
   * A retryable HTTP status on the last allowed attempt raises with that status and body,
   * not with the retries-exhausted error.
   */
  lemma RetryableOnLastAttemptRaisesHttp(o: Oracle, req: Attempt, maxRetries: nat, s: Snap)
    requires forall n :: |s.sent| <= n < |s.sent| + maxRetries ==> Transient(o.answer(n))
    requires o.answer(|s.sent| + maxRetries).HttpErr?
    ensures var x := Execute(o, req, maxRetries, s);
      && x.0 == Failure(HttpFailure(o.answer(|s.sent| + maxRetries).status, o.answer(|s.sent| + maxRetries).body))
      && |x.1.sent| == |s.sent| + maxRetries + 1
  {
    DecidedAt(o, req, maxRetries, 0, maxRetries, s);
  }

  /**
   * When every attempt meets a transport failure, the call sleeps exactly `maxRetries` times
   * and raises with the last failure.
   */
  lemma AllNetworkErrorsExhaust(o: Oracle, req: Attempt, maxRetries: nat, s: Snap)
    requires forall n :: |s.sent| <= n <= |s.sent| + maxRetries ==> o.answer(n).NetErr?
    ensures var x := Execute(o, req, maxRetries, s);
      && x.0 == Failure(Exhausted(Some(o.answer(|s.sent| + maxRetries).reason)))
      && x.1.sent == s.sent + Repeat(req, maxRetries + 1)
      && x.1.delays == s.delays + Backoffs(0, maxRetries)
  {
    DecidedAt(o, req, maxRetries, 0, maxRetries, s);
    TriesHasEffect(o, req, maxRetries, 0, s);
  }

  /** Two 503 answers and then a 200, with two retries allowed: success after sleeping 1 s and 2 s. */
  lemma TwoUnavailableThenOk(o: Oracle, req: Attempt, s: Snap, b1: seq<byte>, b2: seq<byte>, b3: seq<byte>)
    requires o.answer(|s.sent|) == HttpErr(503, b1) && o.answer(|s.sent| + 1) == HttpErr(503, b2)
    requires o.answer(|s.sent| + 2) == Ok(200, b3)
    ensures var x := Execute(o, req, 2, s); x.0 == Success(Reply(200, b3)) && x.1.delays == s.delays + [1, 2]
  {
    FirstSuccessReturned(o, req, 2, 2, s);
    assert Backoffs(0, 2) == [1, 2];
  }

  /** A 404 on the first attempt is raised, not returned, and nothing is retried. */
  lemma NotFoundRaises(o: Oracle, req: Attempt, maxRetries: nat, s: Snap, b: seq<byte>)
    requires o.answer(|s.sent|) == HttpErr(404, b)
    ensures var x := Execute(o, req, maxRetries, s);
      x.0 == Failure(HttpFailure(404, b)) && x.1.sent == s.sent + [req] && x.1.delays == s.delays
  {
    NonRetryableRaises(o, req, maxRetries, 0, s);
    assert Repeat(req, 1) == [req];
  }

  /** `_request`, over the world `env`. */
  method Request(env: Env, req: Attempt, maxRetries: int) returns (r: Result<Reply, RequestError>)
    modifies env
    ensures (r, env.State()) == Execute(env.oracle, req, maxRetries, old(env.State()))
  {
    ghost var s0 := env.State();
    var attempt: nat := 0;
    var lastErr: Option<string> := None;
    while attempt <= maxRetries
      invariant attempt <= maxRetries || (maxRetries < 0 && env.State() == s0 && lastErr == None)
      invariant maxRetries >= 0 ==>
        Tries(env.oracle, req, maxRetries, 0, s0) == Tries(env.oracle, req, maxRetries, attempt, env.State())
      decreases maxRetries - attempt
    {
      var answer := env.Send(req);
      match answer
      case Ok(status, body) =>
        return Success(Reply(status, body));
      case HttpErr(status, body) =>
        if status in RETRYABLE_HTTP && attempt < maxRetries {
          env.Sleep(Backoff(attempt));
          attempt := attempt + 1;
        } else {
          return Failure(HttpFailure(status, body));
        }
      case NetErr(reason) =>
        lastErr := Some(reason);
        if attempt < maxRetries {
          env.Sleep(Backoff(attempt));
          attempt := attempt + 1;
        } else {
          break;
        }
    }
    r := Failure(Exhausted(lastErr));
  }
}
