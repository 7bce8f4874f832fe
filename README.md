# deploy.py — a verified model of the deployment orchestrator

`scripts/deploy.py` submits a deployment payload to a deployment API and waits for the job to finish:

- It checks that a base URL and an API key are configured (exit 2 otherwise).
- It builds an idempotency key: the SHA-256 of the serialized payload followed by a salt. The salt is `source-version|build-id|base-url`.
- It POSTs the payload through `_request`, which retries with capped exponential backoff.
- It takes the job id from the first truthy field among `jobId`, `id` and `deploymentId` (exit 3 if there is none).
- It then polls the status URL until one of these happens:
  - the state is a success word: exit 0, after writing an artifact;
  - the state is a failure word: exit 5, after writing an artifact;
  - the wait budget is exceeded: exit 4.

The model is a set of Dafny modules:

| module | models |
|---|---|
| `Basics` | bytes, `Option`, `Result` |
| `JsonValues` | decoded JSON values, Python truthiness, `d.get(a) or d.get(b) or …`, `_parse_json` |
| `Text` | ASCII `lower()`, `_redact`, `rstrip("/")`, substitution of the `{jobId}` field |
| `Utf8` | `str.encode("utf-8")` and its injectivity |
| `Idempotency` | the salt, the hashed preimage and `_make_idempotency_key` |
| `StateClassifier` | the two state vocabularies and the classification |
| `World` | the network, the clock, `time.sleep` and the artifact directory, as class `World.Env` |
| `Executor` | `_request` |
| `Deploy` | `main`: configuration checks, submission, job id, poll loop, exit codes |

**World model.** The world is the class `World.Env`. Its state is summarised by the value `Snap`, which holds:

- every request sent;
- every sleep taken;
- the integer clock;
- the artifacts written.

An `Oracle` answers the n-th network attempt of the run and says how long that attempt took. The clock moves only by those latencies and by the sleeps, so it is monotone. json.dumps, json.loads and SHA-256 are given functions, collected in `Deploy.Codec`. So is `str()` of a job id that is None, a list or a dict; `str()` of a string, a number or a boolean is computed by `Deploy.JobIdText`.

**Imperative parts and their specifications.** `_request` and `main` are loops that mutate state, so they are methods over `Env`:

- `Executor.Request`;
- `Deploy.PollRound`;
- `Deploy.PollUntilTerminal`;
- `Deploy.RunDeployment`.

Each method is proved equal to a pure specification function of the old world state:

- `Executor.Execute`, built from `Executor.Tries`;
- `Deploy.Round`;
- `Deploy.Poll`;
- `Deploy.Run`.

The properties are stated on those functions and proved as lemmas.

**Two behaviours of the code a reader might not expect:**

- An HTTP error with a non-retryable status (404, say) makes `_request` raise. It is never handed back to the caller as a status and body (`scripts/deploy.py:62`).
- Any truthy job id is accepted, including a number: `{"id": 1}` polls `/deployments/1` (`scripts/deploy.py:140-141`). It is not rejected as malformed.

**Edge cases the code has and the model keeps:**

- A negative `max_retries` makes no attempt at all. The call raises "failed after retries: None", modelled as `Exhausted(None)`.
- A negative poll interval crashes the first `time.sleep` (`NegativeSleep`).
- A decoded response that is not a dict crashes `.get` (`NotAnObject`).
- A truthy non-string state crashes `.lower()` (`StateNotText`).
- The salt joins its parts with `|` and does not escape them. Source version `a|` with an empty build id gives the same salt as source version `a` with build id `|` (`Idempotency.SaltComponentsCanCollide`).

## Model

| member | source | states |
|---|---|---|
| Text.Lower | scripts/deploy.py:171 | lower-casing keeps the length and maps every character through ASCII lower-case |
| Text.LowerIdempotent | scripts/deploy.py:171 | lower-casing an already lower-cased state changes nothing |
| Text.Redact | scripts/deploy.py:18-23 | empty stays empty, 1..8 characters become exactly "****", longer secrets become their first 4 chars + "****" + their last 4 chars (12 characters) |
| Text.RedactIgnoresMiddle | scripts/deploy.py:18-23 | the redaction never depends on characters 4..len-5: secrets of one length agreeing outside them redact identically |
| Text.StripTrailingSlashes | scripts/deploy.py:115 | `rstrip("/")` returns a prefix of the input that does not end in '/', and everything it dropped was '/' |
| Text.Fill | scripts/deploy.py:148 | a template without braces is returned unchanged |
| Text.FillLiteralPrefix | scripts/deploy.py:148 | text containing no brace passes through the status-path substitution unchanged |
| Text.FillField | scripts/deploy.py:148 | the `{jobId}` field is replaced by the job id text |
| Text.FillDefaultStatusPath | scripts/deploy.py:97 | the default template `/deployments/{jobId}` becomes `/deployments/` followed by the job id |
| Text.DigitsRoundTrip | scripts/deploy.py:148 | the decimal digits of a natural number start with a digit and read back as that number |
| Text.DecimalRoundTrip | scripts/deploy.py:148 | the decimal text of any integer, sign included, reads back as that integer |
| Text.Digits | scripts/deploy.py:148 | the digits of a natural number are canonical (decimal digits only, no leading zero), and are "0" exactly for 0 |
| Text.Decimal | scripts/deploy.py:148 | `str(n)` is canonical: a minus sign exactly when n is negative, then canonical digits other than "0" after the sign |
| Text.CanonicalDigitsUnique | scripts/deploy.py:148 | canonical digits are the digits of their own value, so no two of them read back as the same number |
| Text.DecimalUnique | scripts/deploy.py:148 | any canonical decimal text is `Text.Decimal` of its own value: `str(n)` is the only canonical text reading back as n |
| JsonValues.ParseJson | scripts/deploy.py:80-83 | an empty body parses to the empty dict; any other body is exactly what `json.loads` makes of it |
| JsonValues.FirstTruthy | scripts/deploy.py:140 | the `or`-chain of `.get` calls yields a truthy value, and yields nothing exactly when every key's value is falsy |
| JsonValues.FirstTruthyPicksFirst | scripts/deploy.py:140 | priority order: the first key whose value is truthy wins, whatever later keys hold |
| Utf8.EncodeScalar | scripts/deploy.py:77 | one scalar value encodes to 1..4 bytes, as many as its lead byte announces |
| Utf8.DecodeEncodeScalar | scripts/deploy.py:77 | decoding the bytes of a scalar value gives the value back |
| Utf8.Encode | scripts/deploy.py:77 | a non-empty string encodes to non-empty bytes |
| Utf8.EncodeInjective | scripts/deploy.py:77 | `salt.encode("utf-8")` is injective |
| Idempotency.Salt | scripts/deploy.py:112 | the salt is as long as its three parts plus two separators, and ends with the base URL |
| Idempotency.KeyPreimage | scripts/deploy.py:76-78 | the hashed bytes are the serialized payload followed by the UTF-8 bytes of the salt |
| Idempotency.IdempotencyKey | scripts/deploy.py:76-78 | the key is the hex SHA-256 digest of `Idempotency.KeyPreimage`; specification only, its properties are the preimage lemmas below |
| Idempotency.DistinctSaltsDistinctPreimages | scripts/deploy.py:76-78 | for one serialized payload, different salts give different hash preimages |
| Idempotency.DistinctBaseUrlsDistinctPreimages | scripts/deploy.py:111-113 | within one build, different base URLs give different hash preimages for the same payload |
| Idempotency.SaltComponentsCanCollide | scripts/deploy.py:112 | two different (source version, build id) pairs can produce the same salt |
| StateClassifier.VocabulariesDisjoint | scripts/deploy.py:174-178 | no state word is both a success and a failure word |
| StateClassifier.Classify | scripts/deploy.py:171-186 | Succeeded iff the lower-cased state is in {succeeded, success, completed}; Failed iff it is in {failed, error, cancelled, canceled}; InProgress iff neither, including "" and unknown words |
| StateClassifier.ClassifyIgnoresCase | scripts/deploy.py:171 | the classification does not depend on letter case |
| StateClassifier.ClassifyExamples | scripts/deploy.py:171-186 | SUCCEEDED succeeds, Cancelled fails, queued and "" keep polling |
| World.Env.Send | scripts/deploy.py:48-49 | an attempt is logged, answered by the oracle for its index, and advances the clock by its latency |
| World.Env.Sleep | scripts/deploy.py:58 | a sleep is logged and advances the clock by its duration, nothing else changes |
| World.Env.Emit | scripts/deploy.py:188-203 | writing the artifact appends exactly that record, nothing else changes |
| Executor.Backoff | scripts/deploy.py:56 | each backoff sleep lies between 1 and 60 seconds |
| Executor.BackoffSchedule | scripts/deploy.py:56 | the sleeps after attempts 0..5 are 1, 2, 4, 8, 16, 32 seconds and 60 seconds after every later attempt |
| Executor.TriesHasEffect | scripts/deploy.py:39-74 | from attempt k: at least one and at most maxRetries+1-k attempts, all of the same request; the delay log grows by exactly the backoff schedule from k, one sleep fewer than attempts; no artifact; the outcome is the settlement of the last attempt's answer: its response is returned, its HTTP error is raised with status and body, or its transport error is the one the exhausted retries carry |
| Executor.ExecuteHasEffect | scripts/deploy.py:28-74 | 1..maxRetries+1 attempts with the backoff schedule between them, the outcome settled by the last attempt's answer; a negative budget makes no attempt and leaves the world untouched; "exhausted with no error" happens exactly when the budget is negative |
| Executor.DecidedAt | scripts/deploy.py:42-72 | the first non-transient answer, or the answer to the last allowed attempt, decides the outcome and no attempt follows it |
| Executor.FirstSuccessReturned | scripts/deploy.py:48-49 | a first success at attempt k is returned unchanged after exactly k+1 attempts and the first k backoff sleeps |
| Executor.NonRetryableRaises | scripts/deploy.py:51-62 | a status outside {429,500,502,503,504} raises with that status and body, with no sleep and no further attempt |
| Executor.RetryableOnLastAttemptRaisesHttp | scripts/deploy.py:55-62 | a retryable status on the last allowed attempt raises as an HTTP error, not as retries exhausted |
| Executor.AllNetworkErrorsExhaust | scripts/deploy.py:64-74 | if every attempt fails in transport, the call sleeps exactly maxRetries times and raises with the last error |
| Executor.TwoUnavailableThenOk | scripts/deploy.py:51-60 | 503, 503, 200 with two retries succeeds after sleeping 1 s and then 2 s |
| Executor.NotFoundRaises | scripts/deploy.py:62 | a 404 is raised on the first attempt and never retried |
| Executor.Tries | scripts/deploy.py:39-74 | specification of the retry loop from one attempt on; its properties are stated by `Executor.TriesHasEffect` and `Executor.DecidedAt` |
| Executor.Execute | scripts/deploy.py:28-74 | specification of `_request`; its properties are stated by `Executor.ExecuteHasEffect` and the lemmas above, and `Executor.Request` is proved equal to it |
| Executor.Request | scripts/deploy.py:28-74 | the retry loop returns exactly what `Executor.Execute` specifies and leaves the world in exactly the state it specifies |
| Deploy.SubmitHeaders | scripts/deploy.py:117-124 | Content-Type and Accept are application/json, and X-API-Key and Idempotency-Key carry the API key and the idempotency key; X-Correlation-Id is present exactly when the correlation id is non-empty, and then holds it; there is no other header |
| Deploy.StatusHeaders | scripts/deploy.py:160-164 | the status headers are exactly Accept, X-API-Key and X-Correlation-Id: JSON is accepted, the API key is passed, and the correlation header repeats the submit request's one, or is "" when that had none |
| Deploy.JobIdText | scripts/deploy.py:148 | the text substituted for `{jobId}`: a string id as it is, a number as `Text.Decimal` of it (so it reads back as that number), a boolean as `True` or `False` according to its value, anything else as its given `str()` |
| Deploy.SubmitRequest | scripts/deploy.py:111-137 | the submission is a POST of the serialized payload to the base URL without trailing slashes followed by the submit path, with the submit headers whose idempotency key is the digest of the payload bytes followed by the salt, and the configured timeout |
| Deploy.StatusRequest | scripts/deploy.py:148-168 | a status request is a GET without body of the base URL without trailing slashes followed by the status template with the job id filled in, with the status headers and the configured timeout |
| Deploy.StateText | scripts/deploy.py:171 | a response that is not a dict fails with NotAnObject; from a dict, the state is "" when neither `status` nor `state` is truthy; otherwise the first truthy one of them is the state when it is a string, and any other value fails with StateNotText |
| Deploy.RoundHasEffect | scripts/deploy.py:157-186 | one status fetch sends only the status request, at least once; exit 0 or 5 only with one artifact for this job whose status classifies as success or failure; any other outcome writes no artifact; the delay log grows by the backoff schedule between the attempts of the fetch and, when the loop goes round, by exactly one sleep of the poll interval after it |
| Deploy.ClassifiedRoundDecides | scripts/deploy.py:170-186 | after a fetched, decoded and read status, a success word stops the round with exit 0 and a failure word with exit 5, each after writing the job's artifact; any other word sleeps the poll interval and goes round, and a negative interval raises |
| Deploy.FailedRoundCrashes | scripts/deploy.py:157-171 | a fetch that raised, a status body that does not decode and a status that cannot be read each stop the round with that exception, in the state the fetch left |
| Deploy.PollStep | scripts/deploy.py:151-186 | within the budget, the loop is one round that either stops with that round's result or leaves the rest of the loop to run from the round's end state |
| Deploy.PollSendsStatusOnly | scripts/deploy.py:151-165 | the loop sends nothing but the job's status request, and sends it at least once when it starts within the budget |
| Deploy.PollEndsInTime | scripts/deploy.py:151-156 | the clock never goes back; the exit code is 0, 4 or 5; a round that finds the budget exceeded returns 4 at once, with no request; 4 comes only after elapsed > max_wait |
| Deploy.PollWritesOnTerminal | scripts/deploy.py:170-182 | exit 0/5 comes with exactly one artifact for the job, whose final status classifies as success/failure; no artifact otherwise |
| Deploy.RunHasEffect | scripts/deploy.py:101-186 | exit 2 comes exactly when the base URL or the API key is missing, before any request; exit codes are among 0,2,3,4,5; requests are only ever added; an artifact is written exactly when the code is 0 or 5; exit 3 sends nothing but the submit request |
| Deploy.SubmitDecides | scripts/deploy.py:130-143 | with the configuration present, a submission that raised, a body that does not decode or a decoded value that is not a dict crashes, and a dict with none of `jobId`, `id`, `deploymentId` truthy exits 3, each after however many attempts the submission took |
| Deploy.PollFinishes | scripts/deploy.py:151-186 | with poll >= 1, enough rounds always end the loop: time-out or terminal state |
| Deploy.RunFinishes | scripts/deploy.py:147-186 | with poll >= 1, a run never ends while still polling once the round bound covers max_wait + 2 |
| Deploy.RequestsWithinIsFloor | scripts/deploy.py:151-186 | the number of polls that fit in a budget b at interval p is floor(b/p) + 1 |
| Deploy.PollCountsFromStart | scripts/deploy.py:151-186 | started with a fresh clock, zero latency, poll >= 1 and a job that stays pending, the loop makes exactly floor(max_wait/poll)+1 status requests, each followed by one poll-interval sleep, then exits 4 |
| Deploy.PollCountsRequests | scripts/deploy.py:151-186 | with zero latency, poll >= 1 and a job that stays pending, exactly floor(max_wait/poll)+1 status requests are made, each followed by one poll-interval sleep, then exit 4 |
| Deploy.PendingRoundContinues | scripts/deploy.py:183-186 | a first answer whose state is unknown or in progress is never fatal: the round makes that one request and sleeps the poll interval, whatever the request's latency |
| Deploy.FiveSecondsEveryTwo | scripts/deploy.py:151-186 | a 5 s budget polled every 2 s makes 3 status requests and times out |
| Deploy.AnsweredAtOnce | scripts/deploy.py:48-49 | a response on the first attempt is returned after that one attempt |
| Deploy.SubmittedJobPolled | scripts/deploy.py:130-148 | a submission that returns, after however many attempts, a dict naming a job leads to polling that job's status request, with the clock started after the submission |
| Deploy.CompletedRoundStops | scripts/deploy.py:170-177 | a `{"status":"completed"}` answer ends the round with exit 0 and the job's artifact |
| Deploy.SubmitThenCompleted | scripts/deploy.py:130-177 | submit answered with `{"jobId":"abc"}` then status `completed`: exit 0 after two requests, one artifact for "abc" |
| Deploy.NumericIdAccepted | scripts/deploy.py:140-148 | `{"id": 1}` is accepted as a job id; the next request is a GET of base + `/deployments/1` |
| Deploy.EmptySubmitBodyExits3 | scripts/deploy.py:80-83 | an empty submit body parses to `{}`, so the run exits 3 after the single submit request |
| Deploy.Round | scripts/deploy.py:157-186 | specification of one poll iteration; its properties are stated by `Deploy.RoundHasEffect`, `Deploy.ClassifiedRoundDecides` and `Deploy.FailedRoundCrashes`, and `Deploy.PollRound` is proved equal to it |
| Deploy.Poll | scripts/deploy.py:151-186 | specification of the poll loop; its properties are stated by `Deploy.PollStep`, the three `Poll…` effect lemmas and `Deploy.PollFinishes`, and `Deploy.PollUntilTerminal` is proved equal to it |
| Deploy.Run | scripts/deploy.py:101-186 | specification of `main`; its properties are stated by `Deploy.RunHasEffect`, `Deploy.SubmitDecides`, `Deploy.SubmittedJobPolled` and `Deploy.RunFinishes`, and `Deploy.RunDeployment` is proved equal to it |
| Deploy.PollRound | scripts/deploy.py:157-186 | one iteration of the poll loop does exactly what `Deploy.Round` specifies |
| Deploy.PollUntilTerminal | scripts/deploy.py:151-186 | the `while True` loop does exactly what `Deploy.Poll` specifies |
| Deploy.RunDeployment | scripts/deploy.py:101-186 | `main` returns the result, and leaves the world in the state, that `Deploy.Run` specifies |

## Left out

- `urllib` itself: requests go to the oracle, and the `timeout` argument is passed along but has no effect on the answers.
- `HTTPError` being a subclass of `URLError` is not modelled. It only decides which `except` clause runs, and the three-way `Answer` type already fixes that.
- Wall-clock time: `time.time()` is floating point and `int(...)` truncates the elapsed time. The model uses an integer clock that moves by request latencies and sleeps.
- SHA-256, `json.dumps` and `json.loads` are given functions in `Deploy.Codec`, so collision resistance is not claimed. The same holds for `str()` of a list, dict or None job id.
- JSON floats are not modelled; numbers are integers.
- argparse and the environment-variable defaults are not modelled: the parsed options arrive as `Deploy.Config` and the build identifiers as `Idempotency.RunContext`.
- Reading the payload file is not modelled: the payload arrives as a decoded value.
- Log and print output is not modelled.
- The artifact file path and its timestamp are not modelled: an artifact is an event carrying the job id, payload, submit response and final status.
- Text.Fill: only the `{jobId}` field is substituted. Other `str.format` syntax is kept as literal text, whereas Python's `{{`, `}}` and other fields behave differently or raise.
- Text.Lower: ASCII only, where Python lower-cases all of Unicode.
- Utf8.Encode: Dafny strings hold Unicode scalar values only, so a lone surrogate cannot be represented; on one, Python's encode would raise.
- Deploy.Poll: its `fuel` bound on the number of rounds is not in the source. It only matters when the poll interval is 0 and the job stays pending; `Deploy.PollFinishes` shows it never binds once poll >= 1.
- Deploy.PollCountsRequests: does not state the final clock value (the start plus the number of requests times the poll interval), only the requests, the sleeps and the exit code.
- Deploy.PollCountsFromStart: does not state the final clock value (the start plus the number of requests times the poll interval), only the requests, the sleeps and the exit code.
- `deploy/scripts/validate_payload.py` is not part of this model: it wraps a JSON-schema validator and file I/O.
