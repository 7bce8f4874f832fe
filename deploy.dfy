/**
 * `main` of the deploy script: configuration checks, the idempotent submission, job-id
 * extraction, and the poll loop that waits for a terminal state within the wait budget.
 */
module Deploy {
  import opened Basics
  import opened JsonValues
  import opened Text
  import opened Idempotency
  import opened StateClassifier
  import opened World
  import opened Executor

  /** The options `main` works with, once argparse and the environment have supplied them. */
  datatype Config = Config(
    baseUrl: string, apiKey: string, timeout: int, poll: int, maxWait: int, maxRetries: int,
    submitPath: string, statusPathTemplate: string, correlationId: string)

  /**
   * The JSON library and the digest, taken as given functions: `json.dumps` with compact
   * separators and UTF-8 output, `json.loads` (None for a body that does not decode),
   * SHA-256 as lowercase hex, and `str()` of a job id that is None, a list or a dict.
   */
  datatype Codec = Codec(
    dumps: Json -> seq<byte>, loads: seq<byte> -> Option<Json>,
    sha256Hex: seq<byte> -> string, repr: Json -> string)

  /** Exceptions that escape `main`. */
  datatype RunError =
    | RequestFailed(cause: RequestError)  // `_request` raised
    | InvalidJson                         // `json.loads` raised
    | NotAnObject                         // `.get` on a decoded value that is not a dict
    | StateNotText                        // `.lower()` on a state that is not a string
    | NegativeSleep                       // `time.sleep` of a negative poll interval

  /** How a run ends: an exit code, an exception, or (in the model only) fuel spent while polling. */
  datatype RunResult = Exit(code: int) | Crash(error: RunError) | StillPolling

  const JOB_ID_KEYS: seq<string> := ["jobId", "id", "deploymentId"]
  const STATE_KEYS: seq<string> := ["status", "state"]
  const CORRELATION_HEADER: string := "X-Correlation-Id"

  /** The submit headers; the correlation header is present exactly when an id was given. */
  function SubmitHeaders(apiKey: string, idemKey: string, correlationId: string): (h: map<string, string>)
    ensures CORRELATION_HEADER in h <==> correlationId != ""
    ensures h.Keys - {CORRELATION_HEADER} == {"Content-Type", "Accept", "X-API-Key", "Idempotency-Key"}
    ensures h["Content-Type"] == "application/json" && h["Accept"] == "application/json"
    ensures h["X-API-Key"] == apiKey && h["Idempotency-Key"] == idemKey
    ensures correlationId != "" ==> h[CORRELATION_HEADER] == correlationId
  {
    var base := map[
      "Content-Type" := "application/json",
      "Accept" := "application/json",
      "X-API-Key" := apiKey,
      "Idempotency-Key" := idemKey];
    if correlationId != "" then base[CORRELATION_HEADER := correlationId] else base
  }

  /** The status headers, which copy the correlation header of the submit headers, or "". */
  function StatusHeaders(apiKey: string, submitHeaders: map<string, string>): (h: map<string, string>)
    ensures h.Keys == {"Accept", "X-API-Key", CORRELATION_HEADER}
    ensures h["Accept"] == "application/json" && h["X-API-Key"] == apiKey
    ensures CORRELATION_HEADER in submitHeaders ==> h[CORRELATION_HEADER] == submitHeaders[CORRELATION_HEADER]
    ensures CORRELATION_HEADER !in submitHeaders ==> h[CORRELATION_HEADER] == ""
  {
    map[
      "Accept" := "application/json",
      "X-API-Key" := apiKey,
      CORRELATION_HEADER := if CORRELATION_HEADER in submitHeaders then submitHeaders[CORRELATION_HEADER] else ""]
  }

  /** `format(job_id)`: the text of the job id as it goes into the status path. */
  function JobIdText(jobId: Json, repr: Json -> string): (r: string)
    ensures jobId.Str? ==> r == jobId.s
    ensures jobId.Num? ==> r == Decimal(jobId.n) && DecimalValue(r) == jobId.n
    ensures jobId.Bool? ==> (r == "True" <==> jobId.b) && (r == "False" <==> !jobId.b)
    ensures jobId.Null? || jobId.Arr? || jobId.Obj? ==> r == repr(jobId)
  {
    match jobId
    case Str(s) => s
    case Num(n) => DecimalRoundTrip(n); Decimal(n)
    case Bool(b) => if b then "True" else "False"
    case _ => repr(jobId)
  }

  /** The salt, the idempotency key and the POST of the serialized payload. */
  function SubmitRequest(codec: Codec, cfg: Config, ctx: RunContext, payload: Json): (r: Attempt)
    ensures r.verb == "POST" && r.timeout == cfg.timeout
    ensures r.url == StripTrailingSlashes(cfg.baseUrl) + cfg.submitPath
    ensures r.body == Some(codec.dumps(payload))
    ensures r.headers == SubmitHeaders(cfg.apiKey,
      codec.sha256Hex(KeyPreimage(codec.dumps(payload), Salt(ctx, cfg.baseUrl))), cfg.correlationId)
  {
    var key := IdempotencyKey(codec.sha256Hex, codec.dumps(payload), Salt(ctx, cfg.baseUrl));
    Attempt("POST", StripTrailingSlashes(cfg.baseUrl) + cfg.submitPath,
      SubmitHeaders(cfg.apiKey, key, cfg.correlationId), Some(codec.dumps(payload)), cfg.timeout)
  }

  /** The GET of the status path with the job id filled in. */
  function StatusRequest(cfg: Config, submitHeaders: map<string, string>, jobIdText: string): (r: Attempt)
    ensures r.verb == "GET" && r.body == None && r.timeout == cfg.timeout
    ensures r.url == StripTrailingSlashes(cfg.baseUrl) + Fill(cfg.statusPathTemplate, jobIdText)
    ensures r.headers == StatusHeaders(cfg.apiKey, submitHeaders)
  {
    Attempt("GET", StripTrailingSlashes(cfg.baseUrl) + Fill(cfg.statusPathTemplate, jobIdText),
      StatusHeaders(cfg.apiKey, submitHeaders), None, cfg.timeout)
  }

  /**
   * `(s_resp.get("status") or s_resp.get("state") or "")`, before lower-casing: fails when the
   * decoded response is not a dict or when the chosen value is not a string.
   */
  function StateText(resp: Json): (r: Result<string, RunError>)
    ensures !resp.Obj? ==> r == Failure(NotAnObject)
    ensures resp.Obj? && FirstTruthy(resp.fields, STATE_KEYS).None? ==> r == Success("")
    ensures resp.Obj? && FirstTruthy(resp.fields, STATE_KEYS).Some? ==>
      r == if FirstTruthy(resp.fields, STATE_KEYS).value.Str?
           then Success(FirstTruthy(resp.fields, STATE_KEYS).value.s)
           else Failure(StateNotText)
    ensures r.Success? && r.value != "" ==> FirstTruthy(resp.fields, STATE_KEYS) == Some(Str(r.value))
  {
    if !resp.Obj? then Failure(NotAnObject)
    else match FirstTruthy(resp.fields, STATE_KEYS)
      case None => Success("")
      case Some(Str(text)) => Success(text)
      case Some(_) => Failure(StateNotText)
  }

  /** What the poll loop needs once the job has been submitted. */
  datatype PollJob = PollJob(
    request: Attempt, maxRetries: int, maxWait: int, poll: int,
    jobId: Json, payload: Json, submitResponse: Json)

  /** The artifact is about this job and its last status response classifies as `state`. */
  predicate ArtifactFor(a: Artifact, job: PollJob, state: JobState) {
    && a.jobId == job.jobId && a.payload == job.payload && a.submitResponse == job.submitResponse
    && StateText(a.finalStatus).Success? && Classify(StateText(a.finalStatus).value) == state
  }

  /**
   * The poll loop from world state `s`, with the loop's start time `start` and `fuel` rounds
   * left: time out before the request once the elapsed time exceeds the budget, otherwise
   * fetch the status, stop on a terminal state (writing the artifact), or sleep and go round.
   */
  function Poll(o: Oracle, loads: seq<byte> -> Option<Json>, job: PollJob, start: int, s: Snap, fuel: nat): (RunResult, Snap)
    decreases fuel
  {
    if fuel == 0 then (StillPolling, s)
    else if s.now - start > job.maxWait then (Exit(4), s)
    else
      var round := Round(o, loads, job, s);
      if round.0.Stop? then (round.0.result, round.1)
      else Poll(o, loads, job, start, round.1, fuel - 1)
  }

  lemma RepeatAppend(prefix: seq<Attempt>, a: Attempt, n: nat, m: nat)
    ensures prefix + Repeat(a, n) + Repeat(a, m) == prefix + Repeat(a, n + m)
  {
    assert Repeat(a, n) + Repeat(a, m) == Repeat(a, n + m);
  }

  /**
   * Within the budget, a loop whose outcome is `goal` from `s` has, after one round that ended
   * with `k` in `s'`, either stopped with that round's result or the same outcome from `s'`.
   */
  lemma PollAfterRound(
    o: Oracle, loads: seq<byte> -> Option<Json>, job: PollJob, start: int, s: Snap, fuel: nat,
    k: RoundEnd, s': Snap, goal: (RunResult, Snap), rest: nat)
    requires fuel == rest + 1 && s.now - start <= job.maxWait && (k, s') == Round(o, loads, job, s)
    requires goal == Poll(o, loads, job, start, s, fuel)
    ensures k.Stop? ==> goal == (k.result, s')
    ensures k.Continue? ==> goal == Poll(o, loads, job, start, s', rest)
  {
    if k.Stop? {
      assert Poll(o, loads, job, start, s, fuel) == (k.result, s');
    } else {
      assert Poll(o, loads, job, start, s, fuel) == Poll(o, loads, job, start, s', rest);
    }
  }

  /**
   * Within the budget, the loop is one round, with the effect `RoundEffect` describes, that
   * either stops with its result or leaves the rest of the loop to go on from its end state.
   */
  lemma PollStep(o: Oracle, loads: seq<byte> -> Option<Json>, job: PollJob, start: int, s: Snap, fuel: nat)
    returns (k: RoundEnd, s': Snap)
    requires fuel >= 1 && s.now - start <= job.maxWait
    ensures RoundEffect(job, s, k, s')
    ensures k.Stop? ==> Poll(o, loads, job, start, s, fuel) == (k.result, s')
    ensures k.Continue? ==> Poll(o, loads, job, start, s, fuel) == Poll(o, loads, job, start, s', fuel - 1)
  {
    k, s' := Round(o, loads, job, s).0, Round(o, loads, job, s).1;
    RoundHasEffect(o, loads, job, s);
    PollAfterRound(o, loads, job, start, s, fuel, k, s', Poll(o, loads, job, start, s, fuel), fuel - 1);
  }

  /** The loop from `s` has the effect `PollEffect` describes. */
  lemma PollHasEffect(o: Oracle, loads: seq<byte> -> Option<Json>, job: PollJob, start: int, s: Snap, fuel: nat)
    ensures PollEffect(job, start, s, fuel, Poll(o, loads, job, start, s, fuel))
  {
    PollSendsStatusOnly(o, loads, job, start, s, fuel);
    PollEndsInTime(o, loads, job, start, s, fuel);
    PollWritesOnTerminal(o, loads, job, start, s, fuel);
  }

  /** What the loop from `s` can do: `PollSends`, `PollEnds` and `PollWrites` together. */
  ghost predicate PollEffect(job: PollJob, start: int, s: Snap, fuel: nat, x: (RunResult, Snap)) {
    PollSends(job, start, s, fuel, x) && PollEnds(job, start, s, fuel, x) && PollWrites(job, s, x)
  }

  /**
   * The loop sends nothing but the job's status request, and sends it at least once when it
   * starts within the budget with a retry budget that is not negative.
   */
  ghost predicate PollSends(job: PollJob, start: int, s: Snap, fuel: nat, x: (RunResult, Snap)) {
    && |s.sent| <= |x.1.sent| && x.1.sent == s.sent + Repeat(job.request, |x.1.sent| - |s.sent|)
    && (fuel > 0 && s.now - start <= job.maxWait && job.maxRetries >= 0 ==> |x.1.sent| > |s.sent|)
  }

  /**
   * The clock never goes back; the exit code is 0, 4 or 5; a loop that starts past the budget
   * returns 4 at once without touching the world; and 4 comes only once the budget is exceeded.
   */
  ghost predicate PollEnds(job: PollJob, start: int, s: Snap, fuel: nat, x: (RunResult, Snap)) {
    && x.1.now >= s.now
    && (x.0.Exit? ==> x.0.code in {0, 4, 5})
    && (x.0 == Exit(4) ==> x.1.now - start > job.maxWait)
    && (fuel > 0 && s.now - start > job.maxWait ==> x == (Exit(4), s))
  }

  /**
   * Exit 0 and exit 5 each come with one artifact for this job whose final status classifies
   * as success or failure respectively; every other outcome writes no artifact.
   */
  ghost predicate PollWrites(job: PollJob, s: Snap, x: (RunResult, Snap)) {
    && (x.0 == Exit(0) ==> Emitted(job, s, x.1, Succeeded))
    && (x.0 == Exit(5) ==> Emitted(job, s, x.1, Failed))
    && (x.0 != Exit(0) && x.0 != Exit(5) ==> x.1.artifacts == s.artifacts)
  }

  lemma {:induction false} PollSendsStatusOnly(o: Oracle, loads: seq<byte> -> Option<Json>, job: PollJob, start: int, s: Snap, fuel: nat)
    ensures PollSends(job, start, s, fuel, Poll(o, loads, job, start, s, fuel))
    decreases fuel
  {
    if fuel >= 1 && s.now - start <= job.maxWait {
      var k, s' := PollStep(o, loads, job, start, s, fuel);
      if k.Continue? {
        PollSendsStatusOnly(o, loads, job, start, s', fuel - 1);
        var x := Poll(o, loads, job, start, s', fuel - 1);
        RepeatAppend(s.sent, job.request, |s'.sent| - |s.sent|, |x.1.sent| - |s'.sent|);
      }
    }
  }

  lemma {:induction false} PollEndsInTime(o: Oracle, loads: seq<byte> -> Option<Json>, job: PollJob, start: int, s: Snap, fuel: nat)
    ensures PollEnds(job, start, s, fuel, Poll(o, loads, job, start, s, fuel))
    decreases fuel
  {
    if fuel >= 1 && s.now - start <= job.maxWait {
      var k, s' := PollStep(o, loads, job, start, s, fuel);
      if k.Continue? {
        PollEndsInTime(o, loads, job, start, s', fuel - 1);
      }
    }
  }

  lemma {:induction false} PollWritesOnTerminal(o: Oracle, loads: seq<byte> -> Option<Json>, job: PollJob, start: int, s: Snap, fuel: nat)
    ensures PollWrites(job, s, Poll(o, loads, job, start, s, fuel))
    decreases fuel
  {
    if fuel >= 1 && s.now - start <= job.maxWait {
      var k, s' := PollStep(o, loads, job, start, s, fuel);
      if k.Continue? {
        PollWritesOnTerminal(o, loads, job, start, s', fuel - 1);
      }
    }
  }

  /** From `s` to `s'` exactly one artifact was written, for this job and a status classifying as `state`. */
  ghost predicate Emitted(job: PollJob, s: Snap, s': Snap, state: JobState) {
    && |s'.artifacts| == |s.artifacts| + 1 && s'.artifacts[..|s.artifacts|] == s.artifacts
    && ArtifactFor(s'.artifacts[|s.artifacts|], job, state)
  }

  /**
   * What one round can do: it sends only the status request, at least once unless the retry
   * budget is negative; the clock never goes back and going round means having slept at least
   * the poll interval; it stops with exit 0 or 5 only after writing one artifact for this job
   * whose status classifies accordingly, otherwise with an exception, and writes no artifact then.
   */
  ghost predicate RoundEffect(job: PollJob, s: Snap, k: RoundEnd, s': Snap) {
    && (|s.sent| < |s'.sent| || job.maxRetries < 0)
    && |s.sent| <= |s'.sent| && s'.sent == s.sent + Repeat(job.request, |s'.sent| - |s.sent|)
    && s'.now >= s.now
    && (k.Continue? ==> job.poll >= 0 && s'.now >= s.now + job.poll)
    && (k.Stop? ==> k.result.Crash? || k.result == Exit(0) || k.result == Exit(5))
    && (k == Stop(Exit(0)) ==> Emitted(job, s, s', Succeeded))
    && (k == Stop(Exit(5)) ==> Emitted(job, s, s', Failed))
    && (k != Stop(Exit(0)) && k != Stop(Exit(5)) ==> s'.artifacts == s.artifacts)
  }

  /**
   * The sleeps of one round: the backoff schedule between its attempts, then, when it goes
   * round, exactly one sleep of the poll interval; nothing is slept when the retry budget is
   * negative.
   */
  ghost predicate RoundSleeps(job: PollJob, s: Snap, k: RoundEnd, s': Snap) {
    && (job.maxRetries < 0 ==> s'.delays == s.delays)
    && (job.maxRetries >= 0 && k.Stop? ==> |s'.sent| > |s.sent| && s'.delays == s.delays + Backoffs(0, |s'.sent| - |s.sent| - 1))
    && (k.Continue? ==> |s'.sent| > |s.sent| && s'.delays == s.delays + Backoffs(0, |s'.sent| - |s.sent| - 1) + [job.poll])
  }

  /** How one round of the poll loop ends: with the run's result, or with another round due. */
  datatype RoundEnd = Stop(result: RunResult) | Continue

  /**
   * One round of the poll loop after the timeout check: fetch the status, stop on a terminal
   * state (writing the artifact) or on an error, otherwise sleep the poll interval.
   */
  function Round(o: Oracle, loads: seq<byte> -> Option<Json>, job: PollJob, s: Snap): (RoundEnd, Snap)
  {
    var fetched := Execute(o, job.request, job.maxRetries, s);
    var s1 := fetched.1;
    match fetched.0
    case Failure(e) => (Stop(Crash(RequestFailed(e))), s1)
    case Success(reply) =>
      match ParseJson(reply.body, loads)
      case None => (Stop(Crash(InvalidJson)), s1)
      case Some(status) =>
        match StateText(status)
        case Failure(e) => (Stop(Crash(e)), s1)
        case Success(text) =>
          match Classify(text)
          case Succeeded => (Stop(Exit(0)), AfterEmit(s1, Artifact(job.jobId, job.payload, job.submitResponse, status)))
          case Failed => (Stop(Exit(5)), AfterEmit(s1, Artifact(job.jobId, job.payload, job.submitResponse, status)))
          case InProgress =>
            if job.poll < 0 then (Stop(Crash(NegativeSleep)), s1)
            else (Continue, AfterSleep(s1, job.poll))
  }

  /** Every round has the effect `RoundEffect` describes and sleeps as `RoundSleeps` describes. */
  lemma RoundHasEffect(o: Oracle, loads: seq<byte> -> Option<Json>, job: PollJob, s: Snap)
    ensures RoundEffect(job, s, Round(o, loads, job, s).0, Round(o, loads, job, s).1)
    ensures RoundSleeps(job, s, Round(o, loads, job, s).0, Round(o, loads, job, s).1)
  {
    ExecuteHasEffect(o, job.request, job.maxRetries, s);
    RoundSleepsHold(o, loads, job, s);
  }

  /** The sleeps half of `RoundHasEffect`, kept apart so that each proof stays small. */
  lemma RoundSleepsHold(o: Oracle, loads: seq<byte> -> Option<Json>, job: PollJob, s: Snap)
    ensures RoundSleeps(job, s, Round(o, loads, job, s).0, Round(o, loads, job, s).1)
  {
    ExecuteHasEffect(o, job.request, job.maxRetries, s);
  }
  /**
   * Once the status is fetched, decoded and its state read, the state decides the round: a
   * success word stops with exit 0 and a failure word with exit 5, each after writing the
   * artifact; any other word sleeps the poll interval and goes round (a negative interval
   * makes `time.sleep` raise).
   */
  lemma ClassifiedRoundDecides(
    o: Oracle, loads: seq<byte> -> Option<Json>, job: PollJob, s: Snap, reply: Reply, status: Json, text: string)
    requires Execute(o, job.request, job.maxRetries, s).0 == Success(reply)
    requires ParseJson(reply.body, loads) == Some(status) && StateText(status) == Success(text)
    ensures var s1 := Execute(o, job.request, job.maxRetries, s).1;
      var emitted := AfterEmit(s1, Artifact(job.jobId, job.payload, job.submitResponse, status));
      && (Classify(text) == Succeeded ==> Round(o, loads, job, s) == (Stop(Exit(0)), emitted))
      && (Classify(text) == Failed ==> Round(o, loads, job, s) == (Stop(Exit(5)), emitted))
      && (Classify(text) == InProgress && job.poll >= 0 ==> Round(o, loads, job, s) == (Continue, AfterSleep(s1, job.poll)))
      && (Classify(text) == InProgress && job.poll < 0 ==> Round(o, loads, job, s) == (Stop(Crash(NegativeSleep)), s1))
  {
  }

  /**
   * A round whose fetch, decoding or state reading fails stops with that exception, in the
   * state the fetch left.
   */
  lemma FailedRoundCrashes(o: Oracle, loads: seq<byte> -> Option<Json>, job: PollJob, s: Snap)
    ensures var f := Execute(o, job.request, job.maxRetries, s);
      && (f.0.Failure? ==> Round(o, loads, job, s) == (Stop(Crash(RequestFailed(f.0.error))), f.1))
      && (f.0.Success? && ParseJson(f.0.value.body, loads).None? ==> Round(o, loads, job, s) == (Stop(Crash(InvalidJson)), f.1))
      && (f.0.Success? && ParseJson(f.0.value.body, loads).Some? && StateText(ParseJson(f.0.value.body, loads).value).Failure? ==>
            Round(o, loads, job, s) == (Stop(Crash(StateText(ParseJson(f.0.value.body, loads).value).error)), f.1))
  {
  }


  /**
   * `main`, from world state `s`: the configuration check, the submission, the job id,
   * then the poll loop with its clock started after the submission.
   */
  function Run(o: Oracle, codec: Codec, cfg: Config, ctx: RunContext, payload: Json, s: Snap, fuel: nat): (RunResult, Snap) {
    if cfg.baseUrl == "" || cfg.apiKey == "" then (Exit(2), s)
    else
      var submit := SubmitRequest(codec, cfg, ctx, payload);
      var submitted := Execute(o, submit, cfg.maxRetries, s);
      var s1 := submitted.1;
      match submitted.0
      case Failure(e) => (Crash(RequestFailed(e)), s1)
      case Success(reply) =>
        match ParseJson(reply.body, codec.loads)
        case None => (Crash(InvalidJson), s1)
        case Some(resp) =>
          if !resp.Obj? then (Crash(NotAnObject), s1)
          else match FirstTruthy(resp.fields, JOB_ID_KEYS)
            case None => (Exit(3), s1)
            case Some(jobId) =>
              var job := PollJob(
                StatusRequest(cfg, submit.headers, JobIdText(jobId, codec.repr)),
                cfg.maxRetries, cfg.maxWait, cfg.poll, jobId, payload, resp);
              Poll(o, codec.loads, job, s1.now, s1, fuel)
  }

  /**
   * What a run from `s` can do: a missing base URL or API key exits 2 before any request, and
   * nothing else exits 2; the
   * exit code is one of 0, 2, 3, 4, 5; requests are only ever added; one artifact is added
   * exactly when the code is 0 or 5; exit 3 sends nothing but the submit request.
   */
  ghost predicate RunEffect(codec: Codec, cfg: Config, ctx: RunContext, payload: Json, s: Snap, x: (RunResult, Snap)) {
    && (cfg.baseUrl == "" || cfg.apiKey == "" ==> x == (Exit(2), s))
    && (x.0 == Exit(2) ==> cfg.baseUrl == "" || cfg.apiKey == "")
    && (x.0.Exit? ==> x.0.code in {0, 2, 3, 4, 5})
    && |s.sent| <= |x.1.sent| && x.1.sent[..|s.sent|] == s.sent
    && ((x.0 == Exit(0) || x.0 == Exit(5)) ==>
          |x.1.artifacts| == |s.artifacts| + 1 && x.1.artifacts[..|s.artifacts|] == s.artifacts)
    && (x.0 != Exit(0) && x.0 != Exit(5) ==> x.1.artifacts == s.artifacts)
    && (x.0 == Exit(3) ==> forall i :: |s.sent| <= i < |x.1.sent| ==> x.1.sent[i] == SubmitRequest(codec, cfg, ctx, payload))
  }

  /** Every run has the effect `RunEffect` describes. */
  lemma RunHasEffect(o: Oracle, codec: Codec, cfg: Config, ctx: RunContext, payload: Json, s: Snap, fuel: nat)
    ensures RunEffect(codec, cfg, ctx, payload, s, Run(o, codec, cfg, ctx, payload, s, fuel))
  {
    if cfg.baseUrl != "" && cfg.apiKey != "" {
      var submit := SubmitRequest(codec, cfg, ctx, payload);
      var submitted := Execute(o, submit, cfg.maxRetries, s);
      var s1 := submitted.1;
      ExecuteHasEffect(o, submit, cfg.maxRetries, s);
      assert s1.sent[..|s.sent|] == s.sent;
      if submitted.0.Success? {
        var parsed := ParseJson(submitted.0.value.body, codec.loads);
        if parsed.Some? && parsed.value.Obj? {
          var found := FirstTruthy(parsed.value.fields, JOB_ID_KEYS);
          if found.Some? {
            var job := PollJob(
              StatusRequest(cfg, submit.headers, JobIdText(found.value, codec.repr)),
              cfg.maxRetries, cfg.maxWait, cfg.poll, found.value, payload, parsed.value);
            PollHasEffect(o, codec.loads, job, s1.now, s1, fuel);
            var x := Poll(o, codec.loads, job, s1.now, s1, fuel);
            assert x.1.sent[..|s.sent|] == s.sent by {
              assert x.1.sent[..|s1.sent|] == s1.sent;
            }
          }
        }
      }
    }
  }
  /**
   * With the configuration present, the outcome of the submission decides how `main` goes on
   * when no job is polled: a request that raised, a body that does not decode and a decoded
   * value that is not a dict crash, and a dict with no truthy job id exits 3, each in the
   * state the submission left.
   */
  lemma SubmitDecides(o: Oracle, codec: Codec, cfg: Config, ctx: RunContext, payload: Json, s: Snap, fuel: nat)
    requires cfg.baseUrl != "" && cfg.apiKey != ""
    ensures var f := Execute(o, SubmitRequest(codec, cfg, ctx, payload), cfg.maxRetries, s);
      var x := Run(o, codec, cfg, ctx, payload, s, fuel);
      && (f.0.Failure? ==> x == (Crash(RequestFailed(f.0.error)), f.1))
      && (f.0.Success? && ParseJson(f.0.value.body, codec.loads).None? ==> x == (Crash(InvalidJson), f.1))
      && (f.0.Success? && ParseJson(f.0.value.body, codec.loads).Some? ==>
            var resp := ParseJson(f.0.value.body, codec.loads).value;
            && (!resp.Obj? ==> x == (Crash(NotAnObject), f.1))
            && (resp.Obj? && FirstTruthy(resp.fields, JOB_ID_KEYS).None? ==> x == (Exit(3), f.1)))
  {
  }


  /** With a positive poll interval, `fuel` rounds beyond the wait budget always suffice. */
  lemma {:induction false} PollFinishes(o: Oracle, loads: seq<byte> -> Option<Json>, job: PollJob, start: int, s: Snap, fuel: nat)
    requires job.poll >= 1
    requires fuel >= 1 && fuel >= job.maxWait - (s.now - start) + 2
    ensures Poll(o, loads, job, start, s, fuel).0 != StillPolling
    decreases fuel
  {
    if s.now - start <= job.maxWait {
      var k, s' := PollStep(o, loads, job, start, s, fuel);
      if k.Continue? {
        PollFinishes(o, loads, job, start, s', fuel - 1);
      }
    }
  }

  /** A run whose poll interval is positive ends on its own once fuel covers the wait budget. */
  lemma RunFinishes(o: Oracle, codec: Codec, cfg: Config, ctx: RunContext, payload: Json, s: Snap, fuel: nat)
    requires cfg.poll >= 1 && fuel >= 1 && fuel >= cfg.maxWait + 2
    ensures Run(o, codec, cfg, ctx, payload, s, fuel).0 != StillPolling
  {
    if cfg.baseUrl != "" && cfg.apiKey != "" {
      var submit := SubmitRequest(codec, cfg, ctx, payload);
      var submitted := Execute(o, submit, cfg.maxRetries, s);
      if submitted.0.Success? {
        var parsed := ParseJson(submitted.0.value.body, codec.loads);
        if parsed.Some? && parsed.value.Obj? {
          var found := FirstTruthy(parsed.value.fields, JOB_ID_KEYS);
          if found.Some? {
            var job := PollJob(
              StatusRequest(cfg, submit.headers, JobIdText(found.value, codec.repr)),
              cfg.maxRetries, cfg.maxWait, cfg.poll, found.value, payload, parsed.value);
            PollFinishes(o, codec.loads, job, submitted.1.now, submitted.1, fuel);
          }
        }
      }
    }
  }

  /** A status answer that is a response whose state is not terminal. */
  ghost predicate Pending(a: Answer, loads: seq<byte> -> Option<Json>) {
    && a.Ok?
    && ParseJson(a.body, loads).Some?
    && StateText(ParseJson(a.body, loads).value).Success?
    && Classify(StateText(ParseJson(a.body, loads).value).value) == InProgress
  }

  /** From attempt `k` on, every request takes no time and finds the job still running. */
  ghost predicate PendingFrom(o: Oracle, loads: seq<byte> -> Option<Json>, k: nat) {
    forall n :: k <= n ==> o.latency(n) == 0 && Pending(o.answer(n), loads)
  }

  lemma PendingFromLater(o: Oracle, loads: seq<byte> -> Option<Json>, k: nat, k': nat)
    requires PendingFrom(o, loads, k) && k <= k'
    ensures PendingFrom(o, loads, k') && Pending(o.answer(k), loads) && o.latency(k) == 0
  {
  }

  /** The number of status requests that fit in a remaining budget, one poll interval apart. */
  function RequestsWithin(budget: int, poll: int): nat
    requires poll >= 1
    decreases if budget < 0 then 0 else budget + 1
  {
    if budget < 0 then 0 else 1 + RequestsWithin(budget - poll, poll)
  }

  /** Euclidean division is determined by its quotient-remainder decomposition. */
  lemma DivUnique(a: int, p: int, q: int, r: int)
    requires p >= 1 && a == q * p + r && 0 <= r < p
    ensures a / p == q
  {
    var q', r' := a / p, a % p;
    assert a == q' * p + r' && 0 <= r' < p;
    assert (q' - q) * p == r - r';
    if q' > q {
      MulAtLeast(q' - q, p);
    } else if q' < q {
      MulAtLeast(q - q', p);
    }
  }

  lemma MulAtLeast(k: int, p: int)
    requires k >= 1 && p >= 1
    ensures k * p >= p
  {
    assert k * p == (k - 1) * p + p;
  }

  /** The count is floor(budget / poll) + 1 for a non-negative budget. */
  lemma {:induction false} RequestsWithinIsFloor(budget: int, poll: int)
    requires budget >= 0 && poll >= 1
    ensures RequestsWithin(budget, poll) == budget / poll + 1
    decreases budget
  {
    if budget >= poll {
      RequestsWithinIsFloor(budget - poll, poll);
      DivUnique(budget, poll, (budget - poll) / poll + 1, (budget - poll) % poll);
    } else {
      DivUnique(budget, poll, 0, budget);
    }
  }

  /**
   * With zero-latency requests that always find the job still running, the loop makes
   * exactly floor(budget / poll) + 1 status requests, each on its first attempt, sleeping
   * the poll interval after each, and then times out without another request.
   */
  lemma {:induction false} PollCountsRequests(o: Oracle, loads: seq<byte> -> Option<Json>, job: PollJob, start: int, s: Snap, fuel: nat)
    requires job.poll >= 1 && job.maxRetries >= 0
    requires PendingFrom(o, loads, |s.sent|)
    requires fuel > RequestsWithin(job.maxWait - (s.now - start), job.poll)
    ensures var x := Poll(o, loads, job, start, s, fuel);
      var n := RequestsWithin(job.maxWait - (s.now - start), job.poll);
      && x.0 == Exit(4)
      && x.1.sent == s.sent + Repeat(job.request, n)
      && x.1.delays == s.delays + seq(n, _ => job.poll)
    decreases fuel
  {
    var budget := job.maxWait - (s.now - start);
    if budget >= 0 {
      PendingFromLater(o, loads, |s.sent|, |s.sent| + 1);
      var s2 := PollPendingStep(o, loads, job, start, s, fuel);
      assert RequestsWithin(budget, job.poll) == 1 + RequestsWithin(job.maxWait - (s2.now - start), job.poll);
      PollCountsRequests(o, loads, job, start, s2, fuel - 1);
      PollCountsStep(o, loads, job, start, s, s2, fuel);
    } else {
      PollTimedOutCounts(o, loads, job, start, s, fuel);
    }
  }

  /** One pending round adds one request and one sleep to the counts of the rounds after it. */
  lemma PollCountsStep(o: Oracle, loads: seq<byte> -> Option<Json>, job: PollJob, start: int, s: Snap, s2: Snap, fuel: nat)
    requires fuel >= 1 && job.poll >= 1 && job.maxWait - (s.now - start) >= 0
    requires s2.sent == s.sent + [job.request] && s2.delays == s.delays + [job.poll] && s2.now == s.now + job.poll
    requires Poll(o, loads, job, start, s, fuel) == Poll(o, loads, job, start, s2, fuel - 1)
    requires var y := Poll(o, loads, job, start, s2, fuel - 1);
      var n := RequestsWithin(job.maxWait - (s2.now - start), job.poll);
      && y.0 == Exit(4) && y.1.sent == s2.sent + Repeat(job.request, n) && y.1.delays == s2.delays + seq(n, _ => job.poll)
    ensures var x := Poll(o, loads, job, start, s, fuel);
      var m := RequestsWithin(job.maxWait - (s.now - start), job.poll);
      && x.0 == Exit(4)
      && x.1.sent == s.sent + Repeat(job.request, m)
      && x.1.delays == s.delays + seq(m, _ => job.poll)
  {
    var n := RequestsWithin(job.maxWait - (s2.now - start), job.poll);
    assert job.maxWait - (s2.now - start) == job.maxWait - (s.now - start) - job.poll;
    assert RequestsWithin(job.maxWait - (s.now - start), job.poll) == n + 1;
    CountStep(Poll(o, loads, job, start, s2, fuel - 1), s, s2, job.request, job.poll, n);
  }

  /** Past the budget the loop makes no request and takes no sleep. */
  lemma PollTimedOutCounts(o: Oracle, loads: seq<byte> -> Option<Json>, job: PollJob, start: int, s: Snap, fuel: nat)
    requires fuel >= 1 && job.poll >= 1 && job.maxWait - (s.now - start) < 0
    ensures var x := Poll(o, loads, job, start, s, fuel);
      var m := RequestsWithin(job.maxWait - (s.now - start), job.poll);
      && x.0 == Exit(4)
      && x.1.sent == s.sent + Repeat(job.request, m)
      && x.1.delays == s.delays + seq(m, _ => job.poll)
  {
    assert Repeat(job.request, 0) == [] && seq(0, _ => job.poll) == [];
  }

  lemma CountStep(y: (RunResult, Snap), s: Snap, s2: Snap, req: Attempt, poll: int, n: nat)
    requires s2.sent == s.sent + [req] && s2.delays == s.delays + [poll]
    requires y.1.sent == s2.sent + Repeat(req, n) && y.1.delays == s2.delays + seq(n, _ => poll)
    ensures y.1.sent == s.sent + Repeat(req, n + 1) && y.1.delays == s.delays + seq(n + 1, _ => poll)
  {
    RepeatCons(req, n);
    ConstCons(poll, n);
    assert s2.sent + Repeat(req, n) == s.sent + ([req] + Repeat(req, n));
    assert s2.delays + seq(n, _ => poll) == s.delays + ([poll] + seq(n, _ => poll));
  }

  /** Within the budget, a pending answer that takes no time leads to one more round after a sleep. */
  lemma PollPendingStep(o: Oracle, loads: seq<byte> -> Option<Json>, job: PollJob, start: int, s: Snap, fuel: nat)
    returns (s2: Snap)
    requires job.poll >= 1 && job.maxRetries >= 0 && fuel >= 1 && s.now - start <= job.maxWait
    requires Pending(o.answer(|s.sent|), loads) && o.latency(|s.sent|) == 0
    ensures s2 == s.(sent := s.sent + [job.request], delays := s.delays + [job.poll], now := s.now + job.poll)
    ensures Poll(o, loads, job, start, s, fuel) == Poll(o, loads, job, start, s2, fuel - 1)
  {
    s2 := AfterSleep(AfterSend(o, s, job.request), job.poll);
    PendingRoundContinues(o, loads, job, s);
  }

  lemma ConstCons(d: int, n: nat)
    ensures [d] + seq(n, _ => d) == seq(n + 1, _ => d)
  {
  }

  /** A round that meets a pending answer at once just sleeps the poll interval. */
  lemma PendingRoundContinues(o: Oracle, loads: seq<byte> -> Option<Json>, job: PollJob, s: Snap)
    requires job.poll >= 0 && job.maxRetries >= 0
    requires Pending(o.answer(|s.sent|), loads)
    ensures Round(o, loads, job, s) == (Continue, AfterSleep(AfterSend(o, s, job.request), job.poll))
  {
    var a := o.answer(|s.sent|);
    assert Execute(o, job.request, job.maxRetries, s) == (Success(Reply(a.status, a.body)), AfterSend(o, s, job.request));
  }

  /**
   * From the loop's start, with zero-latency requests that always find the job still running,
   * the loop makes exactly floor(max_wait / poll) + 1 status requests, sleeps the poll interval
   * after each, and then times out.
   */
  lemma PollCountsFromStart(o: Oracle, loads: seq<byte> -> Option<Json>, job: PollJob, s: Snap, fuel: nat)
    requires job.poll >= 1 && job.maxRetries >= 0 && job.maxWait >= 0
    requires PendingFrom(o, loads, |s.sent|)
    requires fuel > job.maxWait / job.poll + 1
    ensures var x := Poll(o, loads, job, s.now, s, fuel);
      && x.0 == Exit(4)
      && |x.1.sent| == |s.sent| + job.maxWait / job.poll + 1
      && x.1.sent == s.sent + Repeat(job.request, job.maxWait / job.poll + 1)
      && x.1.delays == s.delays + seq(job.maxWait / job.poll + 1, _ => job.poll)
  {
    RequestsWithinIsFloor(job.maxWait, job.poll);
    assert job.maxWait - (s.now - s.now) == job.maxWait;
    PollCountsRequests(o, loads, job, s.now, s, fuel);
  }

  /** A 5-second budget polled every 2 seconds allows exactly 3 status requests. */
  lemma FiveSecondsEveryTwo(o: Oracle, loads: seq<byte> -> Option<Json>, job: PollJob, s: Snap, fuel: nat)
    requires job.poll == 2 && job.maxWait == 5 && job.maxRetries >= 0 && fuel > 3
    requires PendingFrom(o, loads, |s.sent|)
    ensures var x := Poll(o, loads, job, s.now, s, fuel); x.0 == Exit(4) && |x.1.sent| == |s.sent| + 3
  {
    PollCountsFromStart(o, loads, job, s, fuel);
  }

  /** The first attempt of a request that gets a response returns it and makes no other attempt. */
  lemma AnsweredAtOnce(o: Oracle, req: Attempt, maxRetries: int, s: Snap)
    requires maxRetries >= 0 && o.answer(|s.sent|).Ok?
    ensures Execute(o, req, maxRetries, s)
      == (Success(Reply(o.answer(|s.sent|).status, o.answer(|s.sent|).body)), AfterSend(o, s, req))
  {
  }

  /**
   * A submission that returns, after however many attempts, a dict naming job `jobId`: `main`
   * goes on to poll that job's status request, with the clock started after the submission.
   */
  lemma SubmittedJobPolled(
    o: Oracle, codec: Codec, cfg: Config, ctx: RunContext, payload: Json, s: Snap, fuel: nat,
    reply: Reply, resp: Json, jobId: Json)
    requires cfg.baseUrl != "" && cfg.apiKey != ""
    requires Execute(o, SubmitRequest(codec, cfg, ctx, payload), cfg.maxRetries, s).0 == Success(reply)
    requires ParseJson(reply.body, codec.loads) == Some(resp) && resp.Obj?
    requires FirstTruthy(resp.fields, JOB_ID_KEYS) == Some(jobId)
    ensures var submit := SubmitRequest(codec, cfg, ctx, payload);
      var s1 := Execute(o, submit, cfg.maxRetries, s).1;
      Run(o, codec, cfg, ctx, payload, s, fuel) == Poll(o, codec.loads, PollJob(
        StatusRequest(cfg, submit.headers, JobIdText(jobId, codec.repr)),
        cfg.maxRetries, cfg.maxWait, cfg.poll, jobId, payload, resp), s1.now, s1, fuel)
  {
  }


  /** A status answer `{"status":"completed"}` ends the round with exit 0 and the job's artifact. */
  lemma CompletedRoundStops(o: Oracle, loads: seq<byte> -> Option<Json>, job: PollJob, s: Snap, statusBody: seq<byte>)
    requires job.maxRetries >= 0
    requires statusBody != [] && loads(statusBody) == Some(Obj(map["status" := Str("completed")]))
    requires o.answer(|s.sent|) == Ok(200, statusBody)
    ensures Round(o, loads, job, s) == (Stop(Exit(0)), AfterEmit(AfterSend(o, s, job.request),
      Artifact(job.jobId, job.payload, job.submitResponse, Obj(map["status" := Str("completed")]))))
  {
    AnsweredAtOnce(o, job.request, job.maxRetries, s);
    var status := Obj(map["status" := Str("completed")]);
    FirstTruthyPicksFirst(status.fields, STATE_KEYS, 0);
    assert StateText(status) == Success("completed");
    assert Lower("completed") == "completed";
  }

  /**
   * Submitting `{"env":"prod"}` to an API that answers `{"jobId":"abc"}` and then
   * `{"status":"completed"}` succeeds after two requests and writes one artifact for "abc".
   */
  lemma SubmitThenCompleted(
    o: Oracle, codec: Codec, cfg: Config, ctx: RunContext, s: Snap, fuel: nat, submitBody: seq<byte>, statusBody: seq<byte>)
    requires cfg.baseUrl != "" && cfg.apiKey != "" && cfg.maxRetries >= 0 && cfg.maxWait >= 0 && fuel >= 1
    requires submitBody != [] && codec.loads(submitBody) == Some(Obj(map["jobId" := Str("abc")]))
    requires statusBody != [] && codec.loads(statusBody) == Some(Obj(map["status" := Str("completed")]))
    requires o.answer(|s.sent|) == Ok(201, submitBody) && o.answer(|s.sent| + 1) == Ok(200, statusBody)
    ensures var x := Run(o, codec, cfg, ctx, Obj(map["env" := Str("prod")]), s, fuel);
      && x.0 == Exit(0) && |x.1.sent| == |s.sent| + 2
      && |x.1.artifacts| == |s.artifacts| + 1 && x.1.artifacts[|s.artifacts|].jobId == Str("abc")
  {
    var payload := Obj(map["env" := Str("prod")]);
    var submit := SubmitRequest(codec, cfg, ctx, payload);
    var s1 := AfterSend(o, s, submit);
    var resp := Obj(map["jobId" := Str("abc")]);
    FirstTruthyPicksFirst(resp.fields, JOB_ID_KEYS, 0);
    AnsweredAtOnce(o, submit, cfg.maxRetries, s);
    SubmittedJobPolled(o, codec, cfg, ctx, payload, s, fuel, Reply(201, submitBody), resp, Str("abc"));
    var job := PollJob(
      StatusRequest(cfg, submit.headers, JobIdText(Str("abc"), codec.repr)),
      cfg.maxRetries, cfg.maxWait, cfg.poll, Str("abc"), payload, resp);
    CompletedRoundStops(o, codec.loads, job, s1, statusBody);
  }

  /** Within the budget, the loop's next request is the job's status request. */
  lemma PollSendsStatusRequest(o: Oracle, loads: seq<byte> -> Option<Json>, job: PollJob, start: int, s: Snap, fuel: nat)
    requires fuel >= 1 && s.now - start <= job.maxWait && job.maxRetries >= 0
    ensures var x := Poll(o, loads, job, start, s, fuel);
      |x.1.sent| > |s.sent| && x.1.sent[|s.sent|] == job.request
  {
    PollHasEffect(o, loads, job, start, s, fuel);
    var x := Poll(o, loads, job, start, s, fuel);
    assert x.1.sent == s.sent + Repeat(job.request, |x.1.sent| - |s.sent|);
  }

  /** A submit response `{"id": 1}` names job 1, whose text in the status path is "1". */
  lemma NumericIdFound(repr: Json -> string)
    ensures FirstTruthy(map["id" := Num(1)], JOB_ID_KEYS) == Some(Num(1))
    ensures JobIdText(Num(1), repr) == "1"
  {
    assert Get(map["id" := Num(1)], "jobId") == Null;
    FirstTruthyPicksFirst(map["id" := Num(1)], JOB_ID_KEYS, 1);
  }

  /** `{"id": 1}` is a valid submit response: the job id is 1 and polling starts on `/deployments/1`. */
  lemma NumericIdAccepted(o: Oracle, codec: Codec, cfg: Config, ctx: RunContext, payload: Json, s: Snap, fuel: nat, submitBody: seq<byte>)
    requires cfg.baseUrl != "" && cfg.apiKey != "" && cfg.maxRetries >= 0 && cfg.maxWait >= 0 && fuel >= 1
    requires cfg.statusPathTemplate == DEFAULT_STATUS_PATH
    requires submitBody != [] && codec.loads(submitBody) == Some(Obj(map["id" := Num(1)]))
    requires o.answer(|s.sent|).Ok? && o.answer(|s.sent|).body == submitBody
    ensures var x := Run(o, codec, cfg, ctx, payload, s, fuel);
      && x.0 != Exit(3) && |x.1.sent| >= |s.sent| + 2
      && x.1.sent[|s.sent| + 1].verb == "GET"
      && x.1.sent[|s.sent| + 1].url == StripTrailingSlashes(cfg.baseUrl) + DEPLOYMENTS_PREFIX + "1"
  {
    var submit := SubmitRequest(codec, cfg, ctx, payload);
    var s1 := AfterSend(o, s, submit);
    var resp := Obj(map["id" := Num(1)]);
    NumericIdFound(codec.repr);
    AnsweredAtOnce(o, submit, cfg.maxRetries, s);
    SubmittedJobPolled(o, codec, cfg, ctx, payload, s, fuel, Reply(o.answer(|s.sent|).status, submitBody), resp, Num(1));
    var job := PollJob(
      StatusRequest(cfg, submit.headers, "1"), cfg.maxRetries, cfg.maxWait, cfg.poll, Num(1), payload, resp);
    PollSendsStatusRequest(o, codec.loads, job, s1.now, s1, fuel);
    PollHasEffect(o, codec.loads, job, s1.now, s1, fuel);
    FillDefaultStatusPath("1");
  }

  /** An empty submit body parses to `{}`: the run exits 3 after the one submit request. */
  lemma EmptySubmitBodyExits3(o: Oracle, codec: Codec, cfg: Config, ctx: RunContext, payload: Json, s: Snap, fuel: nat)
    requires cfg.baseUrl != "" && cfg.apiKey != "" && cfg.maxRetries >= 0
    requires o.answer(|s.sent|).Ok? && o.answer(|s.sent|).body == []
    ensures var x := Run(o, codec, cfg, ctx, payload, s, fuel);
      x == (Exit(3), AfterSend(o, s, SubmitRequest(codec, cfg, ctx, payload)))
  {
    AnsweredAtOnce(o, SubmitRequest(codec, cfg, ctx, payload), cfg.maxRetries, s);
  }

  /** The body of the `while True` loop of `main` after the timeout check. */
  method PollRound(env: Env, loads: seq<byte> -> Option<Json>, job: PollJob) returns (k: RoundEnd)
    modifies env
    ensures (k, env.State()) == Round(env.oracle, loads, job, old(env.State()))
  {
    var fetched := Request(env, job.request, job.maxRetries);
    if fetched.Failure? {
      return Stop(Crash(RequestFailed(fetched.error)));
    }
    var parsed := ParseJson(fetched.value.body, loads);
    if parsed.None? {
      return Stop(Crash(InvalidJson));
    }
    var status := parsed.value;
    var text := StateText(status);
    if text.Failure? {
      return Stop(Crash(text.error));
    }
    var state := Classify(text.value);
    if state == Succeeded {
      env.Emit(Artifact(job.jobId, job.payload, job.submitResponse, status));
      return Stop(Exit(0));
    }
    if state == Failed {
      env.Emit(Artifact(job.jobId, job.payload, job.submitResponse, status));
      return Stop(Exit(5));
    }
    if job.poll < 0 {
      return Stop(Crash(NegativeSleep));
    }
    env.Sleep(job.poll);
    return Continue;
  }

  /** The `while True` loop of `main`, over the world `env`, for at most `fuel` rounds. */
  method PollUntilTerminal(env: Env, loads: seq<byte> -> Option<Json>, job: PollJob, start: int, fuel: nat)
    returns (r: RunResult)
    modifies env
    ensures (r, env.State()) == Poll(env.oracle, loads, job, start, old(env.State()), fuel)
  {
    ghost var outcome := Poll(env.oracle, loads, job, start, env.State(), fuel);
    var left := fuel;
    while true
      invariant outcome == Poll(env.oracle, loads, job, start, env.State(), left)
      decreases left
    {
      if left == 0 {
        return StillPolling;
      }
      var elapsed := env.now - start;
      if elapsed > job.maxWait {
        return Exit(4);
      }
      ghost var here := env.State();
      var k := PollRound(env, loads, job);
      ghost var before := left;
      left := left - 1;
      PollAfterRound(env.oracle, loads, job, start, here, before, k, env.State(), outcome, left);
      if k.Stop? {
        return k.result;
      }
    }
  }

  /**
   * `main` over the world `env`; the poll loop gives up with `StillPolling` after `fuel`
   * rounds, a bound that `RunFinishes` shows is never reached when it is large enough.
   */
  method RunDeployment(env: Env, codec: Codec, cfg: Config, ctx: RunContext, payload: Json, fuel: nat)
    returns (r: RunResult)
    modifies env
    ensures (r, env.State()) == Run(env.oracle, codec, cfg, ctx, payload, old(env.State()), fuel)
  {
    if cfg.baseUrl == "" {
      return Exit(2);
    }
    if cfg.apiKey == "" {
      return Exit(2);
    }

    var salt := Salt(ctx, cfg.baseUrl);
    var idemKey := IdempotencyKey(codec.sha256Hex, codec.dumps(payload), salt);
    var submitUrl := StripTrailingSlashes(cfg.baseUrl) + cfg.submitPath;
    var headers := map[
      "Content-Type" := "application/json",
      "Accept" := "application/json",
      "X-API-Key" := cfg.apiKey,
      "Idempotency-Key" := idemKey];
    if cfg.correlationId != "" {
      headers := headers[CORRELATION_HEADER := cfg.correlationId];
    }

    var submit := Attempt("POST", submitUrl, headers, Some(codec.dumps(payload)), cfg.timeout);
    assert submit == SubmitRequest(codec, cfg, ctx, payload);
    var submitted := Request(env, submit, cfg.maxRetries);
    if submitted.Failure? {
      return Crash(RequestFailed(submitted.error));
    }
    var parsed := ParseJson(submitted.value.body, codec.loads);
    if parsed.None? {
      return Crash(InvalidJson);
    }
    var resp := parsed.value;
    if !resp.Obj? {
      return Crash(NotAnObject);
    }
    var found := FirstTruthy(resp.fields, JOB_ID_KEYS);
    if found.None? {
      return Exit(3);
    }
    var jobId := found.value;

    var statusUrl := StripTrailingSlashes(cfg.baseUrl) + Fill(cfg.statusPathTemplate, JobIdText(jobId, codec.repr));
    var statusRequest := Attempt("GET", statusUrl, StatusHeaders(cfg.apiKey, headers), None, cfg.timeout);
    var job := PollJob(statusRequest, cfg.maxRetries, cfg.maxWait, cfg.poll, jobId, payload, resp);
    var start := env.now;
    r := PollUntilTerminal(env, codec.loads, job, start, fuel);
  }
}
