/**
 * The world the deploy script acts on: the network, the clock, `time.sleep` and the artifact
 * directory. Answers and latencies come from an oracle indexed by the run's attempt counter;
 * the clock moves only by those latencies and by the sleeps, so it never goes back.
 */
module World {
  import opened Basics
  import opened JsonValues

  /**
   * What one `urlopen` attempt yields: a response, an `HTTPError` carrying a status and a
   * body, or a transport failure (`URLError` or `TimeoutError`) with its message.
   */
  datatype Answer =
    | Ok(status: int, body: seq<byte>)
    | HttpErr(status: int, body: seq<byte>)
    | NetErr(reason: string)

  /** The network's answer to, and the duration of, the n-th attempt of the run. */
  datatype Oracle = Oracle(answer: nat -> Answer, latency: nat -> nat)

  /** One HTTP request as handed to `urlopen`. */
  datatype Attempt = Attempt(
    verb: string, url: string, headers: map<string, string>, body: Option<seq<byte>>, timeout: int)

  /** The record `_write_artifacts` persists, without its timestamp. */
  datatype Artifact = Artifact(jobId: Json, payload: Json, submitResponse: Json, finalStatus: Json)

  /** Everything the run has done to the world so far. */
  datatype Snap = Snap(sent: seq<Attempt>, delays: seq<nat>, now: int, artifacts: seq<Artifact>)

  function AfterSend(o: Oracle, s: Snap, a: Attempt): Snap {
    s.(sent := s.sent + [a], now := s.now + o.latency(|s.sent|))
  }

  function AfterSleep(s: Snap, d: nat): Snap {
    s.(delays := s.delays + [d], now := s.now + d)
  }

  function AfterEmit(s: Snap, a: Artifact): Snap {
    s.(artifacts := s.artifacts + [a])
  }

  class Env {
    const oracle: Oracle
    var sent: seq<Attempt>
    var delays: seq<nat>
    var now: int
    var artifacts: seq<Artifact>

    function State(): Snap
      reads this
    {
      Snap(sent, delays, now, artifacts)
    }

    constructor (oracle: Oracle, clock: int)
      ensures this.oracle == oracle && State() == Snap([], [], clock, [])
    {
      this.oracle := oracle;
      sent, delays, now, artifacts := [], [], clock, [];
    }

    /** One network attempt: logged, answered by the oracle, and the clock moves on. */
    method Send(a: Attempt) returns (answer: Answer)
      modifies this
      ensures answer == oracle.answer(|old(sent)|)
      ensures State() == AfterSend(oracle, old(State()), a)
    {
      answer := oracle.answer(|sent|);
      now := now + oracle.latency(|sent|);
      sent := sent + [a];
    }

    /** `time.sleep(d)`. */
    method Sleep(d: nat)
      modifies this
      ensures State() == AfterSleep(old(State()), d)
    {
      delays := delays + [d];
      now := now + d;
    }

    /** `_write_artifacts`, as an event. */
    method Emit(a: Artifact)
      modifies this
      ensures State() == AfterEmit(old(State()), a)
    {
      artifacts := artifacts + [a];
    }
  }
}
