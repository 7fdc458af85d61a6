/**
 * The outside calls a handler makes, recorded in order. A handler returns its
 * reply together with this trace, so that "the gate runs before X" and "no model
 * is invoked" are statements about the trace.
 */
module Calls {
  import opened Oracle
  import opened Store

  /** The two task descriptions the billing handler can hand to its crew. */
  datatype Template = SimpleSummary | DetailedAnalysis

  datatype Step =
    | RelevanceCheck                                   // a model call asking for a YES/NO relevance verdict
    | CustomerLookup(email: string)                    // the customer row for an e-mail
    | BillingLookup(customerId: string)                // the billing join for one customer
    | UsageLookup(customerId: string)                  // the get_user_usage tool
    | PlansLookup                                      // the get_available_plans tool
    | Retrieval(collection: string)                    // a best-effort lookup in one document collection
    | CrewKickoff(template: Template, data: BillingDict) // the billing crew, with its task template and data
    | AdvisorCall(usageData: string, plansData: string)  // the plan advisor model, with the data in its prompt
    | ChatReset                                        // the group chat's message list is emptied
    | GroupChatRun(context: string)                    // the two-agent troubleshooting chat, with its customer context
    | KnowledgeInit                                    // building the document index and query engine
    | EngineQuery(query: string)                       // asking the query engine about the query

  /** What a handler returned (or raised) and the outside calls it made on the way. */
  datatype Handled = Handled(reply: Fallible<string>, trace: seq<Step>)

}
