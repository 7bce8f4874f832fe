/** The Idempotency-Key header: a hash of the serialized payload followed by a run-scoped salt. */
module Idempotency {
  import opened Basics
  import Utf8

  /** The build identifiers the salt is read from (BUILD_SOURCEVERSION and BUILD_BUILDID). */
  datatype RunContext = RunContext(sourceVersion: string, buildId: string)

  /** `sourceversion|buildid|base_url`. */
  function Salt(ctx: RunContext, baseUrl: string): (r: string)
    ensures |r| == |ctx.sourceVersion| + |ctx.buildId| + |baseUrl| + 2
    ensures r[|r| - |baseUrl|..] == baseUrl
  {
    ctx.sourceVersion + "|" + ctx.buildId + "|" + baseUrl
  }

  /** The bytes that are hashed: the serialized payload, then the UTF-8 bytes of the salt. */
  function KeyPreimage(payloadBytes: seq<byte>, salt: string): (r: seq<byte>)
    ensures |r| >= |payloadBytes| && r[..|payloadBytes|] == payloadBytes && r[|payloadBytes|..] == Utf8.Encode(salt)
  {
    payloadBytes + Utf8.Encode(salt)
  }

  /**
   * `_make_idempotency_key`: the hex digest of the preimage; the payload arrives already
   * serialized and the digest `sha256Hex` is taken as a given function.
   */
  function IdempotencyKey(sha256Hex: seq<byte> -> string, payloadBytes: seq<byte>, salt: string): string
  {
    sha256Hex(KeyPreimage(payloadBytes, salt))
  }

  /** On one payload, two distinct salts never share a preimage. */
  lemma DistinctSaltsDistinctPreimages(payloadBytes: seq<byte>, s1: string, s2: string)
    requires s1 != s2
    ensures KeyPreimage(payloadBytes, s1) != KeyPreimage(payloadBytes, s2)
  {
    if KeyPreimage(payloadBytes, s1) == KeyPreimage(payloadBytes, s2) {
      var n := |payloadBytes|;
      assert Utf8.Encode(s1) == KeyPreimage(payloadBytes, s1)[n..];
      assert Utf8.Encode(s2) == KeyPreimage(payloadBytes, s2)[n..];
      Utf8.EncodeInjective(s1, s2);
    }
  }

  /** Within one build, submitting the same payload to two base URLs hashes distinct preimages. */
  lemma DistinctBaseUrlsDistinctPreimages(payloadBytes: seq<byte>, ctx: RunContext, u1: string, u2: string)
    requires u1 != u2
    ensures KeyPreimage(payloadBytes, Salt(ctx, u1)) != KeyPreimage(payloadBytes, Salt(ctx, u2))
  {
    DistinctSaltsDistinctPreimages(payloadBytes, Salt(ctx, u1), Salt(ctx, u2));
  }

  /**
   * The salt does not separate its first two components: a source version and build id that
   * themselves contain `|` can produce the same salt as a different pair.
   */
  lemma SaltComponentsCanCollide(baseUrl: string)
    ensures RunContext("a|", "") != RunContext("a", "|")
    ensures Salt(RunContext("a|", ""), baseUrl) == Salt(RunContext("a", "|"), baseUrl)
  {
    assert "a|" + "|" + "" + "|" == "a" + "|" + "|" + "|";
  }
}
