/**
 * The relevance gate every handler but the knowledge handler runs first: a model
 * is asked for YES or NO, and any "NO" in its trimmed, upper-cased answer rejects
 * the query. A failing call lets the query through.
 */
module Guardrail {
  import opened Oracle
  import opened Text

  const Apology: string :=
    "I apologize, but I can only assist "
    + "with Telecom-related queries "
    + "(Billing, Network, Plans, Technical Support). "
    + "I cannot help with other topics."

  /** The verdict rule: `"NO" in verdict.strip().upper()`. */
  predicate Rejects(verdict: string) {
    Contains(Upper(Strip(verdict)), "NO")
  }

  /**
   * `check_telecom_relevance`, given what the model call returned or raised:
   * (False, the apology) on a rejecting verdict, (True, "") otherwise.
   */
  function CheckTelecomRelevance(verdict: Fallible<string>): (r: (bool, string))
    ensures r.0 <==> r.1 == []
    ensures !r.0 ==> r.1 == Apology
    ensures r.0 <==> (verdict.Raised? || !Rejects(verdict.value))
  {
    match verdict
    case Raised(_) => (true, [])
    case Ok(v) => if Rejects(v) then (false, Apology) else (true, [])
  }

  /** Trimming before upper-casing changes nothing: the rule is "NO" anywhere in the upper-cased verdict. */
  lemma RejectsIgnoresPadding(verdict: string)
    ensures Rejects(verdict) <==> Contains(Upper(verdict), "NO")
  {
    ContainsStripUpper(verdict, "NO");
  }

  /** A lower-case "no" anywhere in the verdict rejects too, because of the upper-casing. */
  lemma LowercaseNoRejects(verdict: string)
    requires Contains(verdict, "no")
    ensures !CheckTelecomRelevance(Ok(verdict)).0
  {
    ContainsUpper(verdict, "no");
    assert Upper("no") == "NO";
    RejectsIgnoresPadding(verdict);
  }
}
