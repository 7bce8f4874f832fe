/** Normalisation of the remote job state into success, failure or still running. */
module StateClassifier {
  import opened Text

  datatype JobState = Succeeded | Failed | InProgress

  const SUCCESS_WORDS: set<string> := {"succeeded", "success", "completed"}
  const FAILURE_WORDS: set<string> := {"failed", "error", "cancelled", "canceled"}

  /** The two terminal vocabularies share no word. */
  lemma VocabulariesDisjoint()
    ensures SUCCESS_WORDS * FAILURE_WORDS == {}
  {
  }

  /**
   * Lower-cases the raw state and looks it up in the two vocabularies; every other word,
   * the empty one included, means the job is still running.
   */
  function Classify(raw: string): (c: JobState)
    ensures c == Succeeded <==> Lower(raw) in SUCCESS_WORDS
    ensures c == Failed <==> Lower(raw) in FAILURE_WORDS
    ensures c == InProgress <==> Lower(raw) !in SUCCESS_WORDS + FAILURE_WORDS
  {
    VocabulariesDisjoint();
    var state := Lower(raw);
    if state in SUCCESS_WORDS then Succeeded
    else if state in FAILURE_WORDS then Failed
    else InProgress
  }

  /** Classification ignores letter case. */
  lemma ClassifyIgnoresCase(raw: string)
    ensures Classify(Lower(raw)) == Classify(raw)
  {
    LowerIdempotent(raw);
  }

  /** The classifications the deployment pipeline relies on. */
  lemma ClassifyExamples()
    ensures Classify("SUCCEEDED") == Succeeded
    ensures Classify("Cancelled") == Failed
    ensures Classify("queued") == InProgress
    ensures Classify("") == InProgress
  {
    assert Lower("SUCCEEDED") == "succeeded";
    assert Lower("Cancelled") == "cancelled";
    assert Lower("queued") == "queued";
  }
}
