/**
 * The plan handler: relevance gate, the cancellation short-circuit, the usage
 * tool's empty-row message, and the advisor call with its error text.
 */
module Service {
  import opened Oracle
  import opened Store
  import opened Calls
  import opened Text
  import opened Guardrail

  const NoUsageData: string := "No usage data found."
  const ServiceCollection: string := "service_docs"
  const PlanErrorPrefix: string := "Error processing plan query: "

  const CancellationKeywords: seq<string> :=
    ["cancel", "close", "terminate", "deactivate", "end my plan", "stop my plan"]

  /** The fixed reply to a cancellation request. */
  const CancellationSteps: string :=
    "To cancel your plan, "
    + "please follow these steps:\n\n"
    + "1. **Contact Customer Service:**\n"
    + "   - Call our helpline or visit"
    + " the nearest service center\n"
    + "   - Have your account details ready"
    + " (Customer ID, registered mobile number)\n\n"
    + "2. **Cancellation Process:**\n"
    + "   - Request plan cancellation\n"
    + "   - Clear any pending dues (if applicable)\n"
    + "   - Return any rented equipment"
    + " (SIM card replacement may be required)\n\n"
    + "3. **Important Notes:**\n"
    + "   - You may be charged"
    + " for the current billing cycle\n"
    + "   - Any unused balance may be refunded"
    + " as per our policy\n"
    + "   - Cancellation takes 24-48 hours to process\n\n"
    + "For immediate assistance, please contact"
    + " our customer service team."

  /** The `get_user_usage` tool: the usage row as text, or a fixed message when the customer has none. */
  function GetUserUsage(tables: Tables, customerId: string): (usage: string)
    ensures customerId !in tables.usageRows ==> usage == NoUsageData
    ensures customerId in tables.usageRows ==> usage == tables.usageRows[customerId]
  {
    if customerId in tables.usageRows then tables.usageRows[customerId] else NoUsageData
  }

  /** Some cancellation keyword occurs in the lower-cased query. */
  predicate IsCancellation(query: string) {
    AnyKeyword(CancellationKeywords, Lower(query))
  }

  /** The keyword test ignores case: "Cancel", "CLOSE" or "closed" all count. */
  lemma CancellationAnyCase(query: string, word: string, i: nat)
    requires i < |CancellationKeywords| && Lower(word) == CancellationKeywords[i]
    requires Contains(query, word)
    ensures IsCancellation(query)
  {
    ContainsLower(query, word);
  }

  /**
   * `process_plan_query`, given the relevance verdict, the database and what the
   * advisor model returns or raises. It never raises itself: the model's exception
   * becomes an error reply.
   */
  function ProcessPlanQuery(query: string, customerId: string, verdict: Fallible<string>,
                            tables: Tables, advisor: Fallible<string>): (h: Handled)
    ensures h.reply.Ok? && |h.trace| >= 1 && h.trace[0] == RelevanceCheck
    ensures !CheckTelecomRelevance(verdict).0 ==> h == Handled(Ok(Apology), [RelevanceCheck])
    // a cancellation request is answered before any tool or model call
    ensures CheckTelecomRelevance(verdict).0 && IsCancellation(query) ==>
      h == Handled(Ok(CancellationSteps), [RelevanceCheck])
    ensures CheckTelecomRelevance(verdict).0 && !IsCancellation(query) ==>
      && h.trace == [RelevanceCheck, UsageLookup(customerId), PlansLookup, Retrieval(ServiceCollection),
                     AdvisorCall(GetUserUsage(tables, customerId), tables.plansListing)]
      && h.reply.value == (if advisor.Ok? then advisor.value else PlanErrorPrefix + advisor.message)
  {
    var (relevant, rejection) := CheckTelecomRelevance(verdict);
    if !relevant then Handled(Ok(rejection), [RelevanceCheck])
    else if IsCancellation(query) then Handled(Ok(CancellationSteps), [RelevanceCheck])
    else
      var usage := GetUserUsage(tables, customerId);
      var plans := tables.plansListing;
      var trace := [RelevanceCheck, UsageLookup(customerId), PlansLookup, Retrieval(ServiceCollection), AdvisorCall(usage, plans)];
      match advisor
      case Ok(content) => Handled(Ok(content), trace)
      case Raised(e) => Handled(Ok(PlanErrorPrefix + e), trace)
  }

  /** The advisor model is reached only for a relevant query that is not a cancellation. */
  lemma AdvisorOnlyAfterShortCircuits(query: string, customerId: string, verdict: Fallible<string>,
                                      tables: Tables, advisor: Fallible<string>, usage: string, plans: string)
    requires AdvisorCall(usage, plans) in ProcessPlanQuery(query, customerId, verdict, tables, advisor).trace
    ensures CheckTelecomRelevance(verdict).0 && !IsCancellation(query)
    ensures usage == GetUserUsage(tables, customerId)
  {
  }
}
