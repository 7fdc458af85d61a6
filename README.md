# Telecom support router, modelled in Dafny

The system is a customer-support assistant for a telecom operator. A chat tab
takes the user's question and passes it, with the last ten messages, to a
routing graph. A classifier model puts the query into a category: billing,
network, plan or knowledge. A multi-intent reply names several categories; the
first valid one is the primary. The router runs exactly one handler node for
that category:

- the billing crew (CrewAI), given the customer's billing row;
- the network troubleshooting group chat (AutoGen), given the customer's account context;
- the plan advisor model, given the customer's usage and the plan list;
- the knowledge base (LlamaIndex), whose answer has its dollar amounts rewritten as rupees.

Every handler except the knowledge handler first asks a model whether the query
is about telecom at all, and turns it away if the answer holds "NO"; a failing
check lets the query through. The knowledge handler builds its engine first and
then runs its own, strict check: a verdict holding "NO" turns the query away,
and a failing check ends the query with the error reply instead of letting it
through. The
finalizer appends a footer naming the other intents of a multi-intent query. The
chat tab stores the reply, prefixed with the answering agent's indicator.

The model follows the program's structure:

| file | module | contents |
|---|---|---|
| `oracle.dfy` | `Oracle` | `Option`, and `Fallible` for a call that returns or raises |
| `store.dfy` | `Store` | the rows the database queries return |
| `calls.dfy` | `Calls` | the trace of outside calls a handler makes |
| `text.dfy` | `Text` | Python's `strip`, `lower`/`upper`, `in`, `replace`, `split`/`join` |
| `guardrail.dfy` | `Guardrail` | the shared relevance gate |
| `billing.dfy` | `Billing` | the billing handler |
| `service.dfy` | `Service` | the plan handler |
| `network.dfy` | `Network` | the network handler and the shared group chat |
| `knowledge.dfy` | `Knowledge` | the lazily built engine and the knowledge handler |
| `graph.dfy` | `Graph` | classification, routing, the node functions, finalize, one run of the graph |
| `chat.dfy` | `Chat` | the chat tab and its session state |

Every call into code the model cannot see is a parameter. This covers the
language models, the crew, the group chat, the retrieval, the query engine and
the database. A call that may raise is a `Fallible` value: `Ok(value)` or
`Raised(message)`.

Each handler is a function returning its reply together with the trace of outside
calls it made. So "the gate runs before the database is read" and "a cancellation
request never reaches the model" are statements about that trace.

State that the program updates in place is a class:
- the graph's `TelecomState` dictionary;
- the module-level group chat;
- the module-level query engine and its `_initialized` flag;
- `st.session_state.messages`.

Each method is proved against the pure function that describes it.

## Model

| member | source | states |
|---|---|---|
| Guardrail.CheckTelecomRelevance | utils/guardrail.py:10-41 | The query is rejected exactly when the model's verdict, trimmed and upper-cased, contains "NO". A rejection carries the fixed apology and an acceptance carries "". A raising model call lets the query through (fail open). |
| Guardrail.RejectsIgnoresPadding | utils/guardrail.py:32-34 | Trimming before upper-casing does not change the decision: rejection iff "NO" occurs anywhere in the upper-cased verdict. |
| Guardrail.LowercaseNoRejects | utils/guardrail.py:32-35 | A lower-case "no" anywhere in the verdict (as in "not sure") rejects the query. |
| Billing.BillingDictOf | agents/billing_agents.py:132-145 | Each of the twelve named fields takes the column at its position, so the row can be read back from the dictionary. |
| Billing.BillingDictOfColumns | agents/billing_agents.py:132-145 | A dictionary rebuilt from its own columns is the same dictionary: no field is lost or moved. |
| Billing.BillingDictOfInjective | agents/billing_agents.py:132-145 | Two different rows never give the same dictionary. |
| Billing.TemplateFor | agents/billing_agents.py:150-166 | The short summary is chosen only when no complex keyword occurs. The detailed analysis is chosen iff the query is not simple (simple: some simple phrase and no complex keyword). |
| Billing.ComplexKeywordAnyCase | agents/billing_agents.py:151-155 | A complex keyword in any letter case makes the query complex and not simple, so it gets the detailed analysis. |
| Billing.SimplePhraseAnyCase | agents/billing_agents.py:158-166 | A simple phrase in any letter case, with no complex keyword, gets the short summary. |
| Billing.NoKeywordIsDetailed | agents/billing_agents.py:158-166 | A query with no simple phrase gets the detailed analysis. |
| Billing.ProcessBillingQuery | agents/billing_agents.py:112-213 | The gate runs first, and a rejection returns the apology before the database is read. A customer without a billing row gets the fixed message and no crew runs. Otherwise retrieval runs, then the crew is started with the chosen template and the row's dictionary; its result is the reply and its exception propagates. |
| Billing.CrewSeesTheRow | agents/billing_agents.py:123-212 | The crew runs only for a relevant query, with the template the query calls for and exactly the customer's billing row. |
| Service.GetUserUsage | agents/service_agents.py:60-75 | The usage tool returns the customer's usage row, or "No usage data found." when the customer has none. |
| Service.CancellationAnyCase | agents/service_agents.py:90-93 | A cancellation keyword in any letter case marks the query as a cancellation request. |
| Service.ProcessPlanQuery | agents/service_agents.py:80-160 | The handler never raises once its advisor client is built (see Left out). A rejection gives the apology. A relevant cancellation request gets the fixed steps before any tool or model call. Otherwise the usage tool, the plans tool and retrieval run, then the advisor is called with that usage and plan list; its answer is the reply, and its exception becomes "Error processing plan query: " and the message. |
| Service.AdvisorOnlyAfterShortCircuits | agents/service_agents.py:84-157 | The advisor is reached only for a relevant, non-cancellation query, and sees the usage tool's output for that customer. |
| Network.NotRegisteredNamesEmail | agents/network_agents.py:143-144 | The reply to an unregistered e-mail names that e-mail. |
| Network.AgentReplies | agents/network_agents.py:176 | The filtered transcript holds only messages not from the user proxy, each taken from the transcript. |
| Network.AgentRepliesConcat | agents/network_agents.py:176 | The filter keeps every agent message in order: it distributes over concatenation. |
| Network.ExtractFinalResponse | agents/network_agents.py:174-181 | The answer is the last agent message with every TERMINATE removed and the rest trimmed. With no agent message it is the fixed "couldn't diagnose" reply. |
| Network.LastAgentDecides | agents/network_agents.py:176-179 | Appending an agent message makes that message's cleaned content the answer, whatever came before. |
| Network.ProxyMessagesIgnored | agents/network_agents.py:176-179 | Appending a user-proxy message does not change the answer. |
| Network.OnlyProxyMeansFallback | agents/network_agents.py:175-181 | A transcript of proxy messages only (or none) gives the fixed fallback. |
| Network.CleanReplyWithoutSentinel | agents/network_agents.py:179 | A reply without TERMINATE is only trimmed. |
| Network.CleanReplyDropsClosingSentinel | agents/network_agents.py:178-179 | A reply ending with TERMINATE, as the agents are told to end, comes back as the text before it, trimmed, provided that text holds no other TERMINATE and does not end with one of the letters of TERMINATE (otherwise `replace` can join a new TERMINATE across the seam). |
| Network.GroupChat.constructor | agents/network_agents.py:105-109 | The shared group chat starts with no messages. |
| Network.GroupChat.Reset | agents/network_agents.py:154 | Resetting empties the chat's message list. |
| Network.GroupChat.Record | agents/network_agents.py:157-172 | A chat run appends its transcript to the message list. |
| Network.NetworkRun | agents/network_agents.py:115-181 | A rejection gives the apology. An unknown caller gets the not-registered reply (or the no-account reply without an e-mail) before retrieval or chat. A lookup that raises does not abort: the chat runs with the error context. Otherwise the chat is reset and run with the customer context, and its transcript gives the reply; its exception propagates. |
| Network.ChatContextMissingOnlyWhenNotFound | agents/network_agents.py:124-148 | The chat goes without a context exactly when the lookup returned no customer. |
| Network.ProcessNetworkQuery | agents/network_agents.py:115-181 | The handler on the shared group chat returns what NetworkRun describes. When the chat runs, its message list afterwards is exactly this run's transcript. Otherwise the list is untouched. |
| Knowledge.DigitRun | agents/knowledge_agents.py:96 | `\d+` is greedy: the run is all digits and stops at the end or at a non-digit. |
| Knowledge.RewriteIsSwap | agents/knowledge_agents.py:96 | The substitution equals swapping each `$` that stands right before a digit for the token. |
| Knowledge.RewriteUnchanged | agents/knowledge_agents.py:96 | A text with no `$` before a digit comes back unchanged. |
| Knowledge.SwapClearsAmounts | agents/knowledge_agents.py:96 | With a token that holds no `$` and does not start with a digit, no `$` before a digit is left. |
| Knowledge.RewriteIdempotent | agents/knowledge_agents.py:96 | Rewriting twice is rewriting once. |
| Knowledge.RupeeText | agents/knowledge_agents.py:92-96 | The rupee rewrite swaps each dollar sign of an amount for U+20B9 and leaves no dollar amount behind. |
| Knowledge.RupeeExample | agents/knowledge_agents.py:96 | "$50" becomes "₹50". |
| Knowledge.MisencodedExample | agents/knowledge_agents.py:96 | With the token as it stands in the source, "$50" becomes three stray characters followed by "50", not "₹50". |
| Knowledge.KnowledgeRun | agents/knowledge_agents.py:64-100 | The handler never raises. The engine is built first, and only if it was not built yet; a failed build ends the query with the error reply. The strict check does not fail open: a raising verdict gives the error reply. The engine is asked about the query exactly when the build (if any) succeeded and the verdict neither raised nor rejected the query. The engine's answer comes back with each `$` before a digit replaced by the given token, and its exception becomes the error reply. The graph runs the handler with the intended U+20B9 token; see Findings. |
| Knowledge.MisencodedHandlerExample | agents/knowledge_agents.py:93-98 | With the token as written, the handler answers an engine reply "$50" with "â‚¹50"; with the intended token it answers "₹50". |
| Knowledge.KnowledgeBase.constructor | agents/knowledge_agents.py:15-17 | The engine starts unbuilt. |
| Knowledge.KnowledgeBase.InitializeKnowledgeBase | agents/knowledge_agents.py:19-62 | A built engine is returned with no work. Otherwise a successful build stores the engine over "telecom_docs" with three matches and sets the flag. A failing build raises and leaves the state unchanged. |
| Knowledge.KnowledgeBase.ProcessKnowledgeQuery | agents/knowledge_agents.py:64-100 | The handler on the shared engine state returns what KnowledgeRun describes for the same query, answer token and prior build state, including which query the engine was asked. The engine is built afterwards iff it was built before or the build succeeded. |
| Knowledge.BuiltOnce | agents/knowledge_agents.py:19-24 | Two consecutive queries on an unbuilt engine state whose first build succeeds: the first builds the engine, the second finds it built and does not build again, and each gets the reply KnowledgeRun describes for the state it met. |
| Graph.FilterValid | orchestration/graph.py:104 | `all_intents` keeps only valid categories, each taken from the tokens. |
| Graph.FilterValidConcat | orchestration/graph.py:104 | The filter keeps every valid token, duplicates and order included: it distributes over concatenation. |
| Graph.FirstValid | orchestration/graph.py:94-99 | There is a primary category iff some token is valid, and then it is the first entry of `all_intents`. |
| Graph.FirstValidFrom | orchestration/graph.py:96-99 | Skipping tokens of which none is valid does not change the primary category. |
| Graph.PrimaryCategory | orchestration/graph.py:94-99 | The loop returns the first valid token, which is a valid category taken from the tokens. |
| Graph.Classify | orchestration/graph.py:27-119 | The classification is always a valid category. Without a client, or when the call raises, it is "knowledge" and the multi-intent keys are not written. `all_intents` is written only together with `multi_intent = True`; it is then non-empty and starts with the classification. |
| Graph.ParseResult | orchestration/graph.py:88-117 | The parsing steps, with the primary found by the loop, give the decision Classify describes, and a valid category. |
| Graph.ClassifyCall | orchestration/graph.py:27-119 | The fallbacks followed by the parse give the decision Classify describes. |
| Graph.SingleCategoryReply | orchestration/graph.py:109-113 | A reply that is exactly one category, once trimmed and lower-cased, is taken as a single intent. |
| Graph.UnrecognisedReply | orchestration/graph.py:114-117 | Any other reply without the multi-intent tag falls back to "knowledge" with `multi_intent = False`. |
| Graph.MultiIntentReply | orchestration/graph.py:89-108 | A multi-intent reply takes its first valid token as primary and all valid tokens, in order, as `all_intents`. With no valid token it falls back to "knowledge". |
| Graph.Route | orchestration/graph.py:213-219 | A valid category is routed to its own node, anything else to the knowledge node. The node name is the category followed by "_node". |
| Graph.RouteIsOnto | orchestration/graph.py:213-219 | Every node is reached by its own category and by no other. |
| Graph.CustomerIdFor | orchestration/graph.py:130-136 | The customer id is the one registered for the e-mail. Without an e-mail, or for an unknown one, it is "CUST001". |
| Graph.LabelInjective | orchestration/graph.py:196 | Different categories get different labels in the footer. |
| Graph.Labels | orchestration/graph.py:197 | Each intent is replaced by its label, position by position. |
| Graph.OtherIntents | orchestration/graph.py:194 | Every intent different from the classification is kept, and only those. |
| Graph.OtherIntentsConcat | orchestration/graph.py:194 | The comprehension keeps the other intents in their order, duplicates included: it distributes over concatenation. |
| Graph.OtherIntentsSingle | orchestration/graph.py:194 | A single intent is kept exactly when it differs from the classification. |
| Graph.OtherIntentsKeepsRepeats | orchestration/graph.py:194-197 | An intent named twice is listed twice in the footer, in the order it was named. |
| Graph.FinalText | orchestration/graph.py:187-201 | The final text is the handler's reply. When the query is multi-intent, has more than one intent and some differ from the classification, the footer naming the labels of those others follows. |
| Graph.FooterExample | orchestration/graph.py:191-198 | A billing-and-network query answered by the billing node ends with a footer naming "network issues". |
| Graph.RepeatedPrimaryNoFooter | orchestration/graph.py:193-195 | A query whose intents all equal the primary gets no footer. |
| Graph.Pipeline | orchestration/graph.py:203-239 | The classification of a run is the classifier's decision and a valid category. The final response is the finalizer's text for the routed node's reply with that decision's multi-intent flag and intents; it starts with the reply and differs from it only for a multi-intent query. The run raises exactly when the routed node raises. Only the billing and network nodes can raise (the plan node's client construction is taken not to raise; see Left out). |
| Graph.TelecomState.constructor | ui/chat_interface.py:60-67 | The state starts with the query, the history and the e-mail, no classification, no intermediate responses and no final response. |
| Graph.TelecomState.ClassifyQuery | orchestration/graph.py:27-119 | The node writes the classification, writes the multi-intent keys only where the reply sets them, and changes nothing else. |
| Graph.TelecomState.Apply | orchestration/graph.py:100-117 | Writes the keys a classification decision sets and leaves the others alone. |
| Graph.TelecomState.RunBillingAgent | orchestration/graph.py:121-140 | Runs the billing node. The reply becomes the single entry "result"; an exception leaves the state as it was and is returned. |
| Graph.TelecomState.RunNetworkAgent | orchestration/graph.py:142-150 | Runs the network node on the shared group chat, with the same state update as the billing node. The chat holds this run's transcript if it ran. |
| Graph.TelecomState.RunPlanAgent | orchestration/graph.py:152-171 | Runs the plan node, which never raises once the advisor client is built; the reply becomes the single entry "result". |
| Graph.TelecomState.RunKnowledgeAgent | orchestration/graph.py:173-177 | Runs the knowledge node on the shared engine state, which never raises; the reply becomes the single entry "result". |
| Graph.TelecomState.RunNode | orchestration/graph.py:221-235 | Runs the routed node. Only the network node touches the group chat, leaving this run's transcript in it when the chat ran. Only the knowledge node touches the engine state, which is built afterwards iff it was built before or the build succeeded. |
| Graph.TelecomState.Finalize | orchestration/graph.py:187-201 | Sets the final response to FinalText of the single intermediate response and changes nothing else. |
| Graph.Invoke | orchestration/graph.py:203-239 | One run on a fresh state gives what Pipeline describes. The shared objects end as SharedAfter describes: the group chat changes only when the network node runs, and then holds this run's transcript if the chat ran; the engine state changes only when the knowledge node runs, and is then built iff it was built before or the build succeeded. |
| Chat.RecentMessages | ui/chat_interface.py:42 | The window is the last ten messages, or all of them when there are fewer. |
| Chat.IndicatorFor | ui/chat_interface.py:74-82 | The indicator is one of the five known ones; an unknown category gets the generic "**AI Assistant**". |
| Chat.IndicatorsDistinguishCategories | ui/chat_interface.py:75-82 | Each category has its own indicator, different from the generic one. |
| Chat.StripIndicator | ui/chat_interface.py:46-52 | The loop removes the first indicator, in list order, that the content starts with, and trims the rest. Content starting with no indicator is passed on unchanged. |
| Chat.IndicatorStrippedOnce | ui/chat_interface.py:48-52 | Exactly one indicator is removed: what follows it, even another indicator, is only trimmed. |
| Chat.FormatReplyRoundTrip | ui/chat_interface.py:46-83 | A reply stored on the assistant tab, read back for context, is the trimmed response. |
| Chat.NoIndicatorUntouched | ui/chat_interface.py:48-52 | Content that starts with no indicator is passed on as it is, not even trimmed. |
| Chat.ContextHistory | ui/chat_interface.py:40-57 | The history has one entry per recent message, in order. Assistant messages lose their indicator; user messages are kept as typed. |
| Chat.BuildChatHistory | ui/chat_interface.py:40-57 | The loop builds exactly the history ContextHistory describes. |
| Chat.HistoryEndsWithPrompt | ui/chat_interface.py:37-42 | The history passed with a prompt holds one to ten messages and ends with the prompt. |
| Chat.WithList | ui/chat_interface.py:20-22 | After initialisation the tab's list exists, and an existing list is kept. |
| Chat.Answer | ui/chat_interface.py:59-91 | The stored text is the indicator-prefixed final response of the graph run on the prompt, or "Error: " and the message when the graph raised. The group chat and the engine state end as for that run of the graph (SharedAfter). |
| Chat.ChatSession.Submit | ui/chat_interface.py:8-91 | No input, or a prompt of white space only, stores nothing beyond creating the tab's list. Otherwise the prompt is appended, the graph runs with the recent history, and the indicator-prefixed reply, or "Error: " and the exception, is appended after it, and the group chat and the engine state end as for that run of the graph (SharedAfter). With no accepted prompt the group chat and the engine state are unchanged. The signed-in e-mail never changes. |
| Chat.ChatSession.Send | ui/chat_interface.py:37-91 | The accepted prompt and then the stored reply are appended to the tab's list; the history handed to the graph is the context history including the prompt. The group chat and the engine state end as for that run of the graph (SharedAfter). |
| Chat.ChatSession.Reply | ui/chat_interface.py:59-91 | The stored text is what Chat.Answer describes, and it alone is appended to the tab's list; the group chat and the engine state end as for that run of the graph. |
| Chat.ChatSession.Append | ui/chat_interface.py:37 | Appends one message to one tab's list and changes nothing else. |
| Text.StripIsSlice | orchestration/graph.py:81 | `strip()` returns the slice between the leading and the trailing white space, and that slice neither starts nor ends with white space. |
| Text.StripUpper | utils/guardrail.py:32 | Upper-casing keeps white space where it is, so trimming and upper-casing commute. |
| Text.ContainsLower | agents/billing_agents.py:151-155 | A keyword found in the query is found, lower-cased, in the lower-cased query. |
| Text.SplitJoin | orchestration/graph.py:92 | Joining the pieces of `split(",")` with "," gives back the text, and no piece holds a comma. |
| Text.ReplaceAllAbsent | agents/network_agents.py:179 | `replace` of a text that does not occur changes nothing. |
| Text.ReplaceFirstPrefix | ui/chat_interface.py:51 | `replace(indicator, "", 1)` on content starting with the indicator drops exactly that prefix. |

## Left out

- `lower()`, `upper()` and `\d` are modelled for ASCII letters and digits only. Python also maps other Unicode letters and matches other Unicode digits.
- Database exceptions are modelled only for the network handler's customer lookup, the only query whose exception the source catches. The other queries are taken to return.
- A query that matches several rows yields its first row (`fetchone`), so each lookup is a map from the filtered key to that row. Row order and duplicate e-mails are not modelled.
- The billing join is a LEFT JOIN, so a customer without usage still yields a row of NULLs. The model takes the row map as given and does not derive it from the tables.
- The prompt texts sent to the models, the agents' role descriptions and the crew and chat configuration are not modelled. Only the data a prompt carries appears, as the arguments of the trace steps.
- The turn-taking inside the group chat (speaker selection, `max_round`, the proxy's termination test) is not modelled. The transcript is a parameter. A chat that raises records nothing in the group chat.
- Retrieval from the document collections (`_get_billing_knowledge` and its two siblings) is a trace step. Its contents, and its swallowed errors, are not modelled.
- The `str()` rendering of the usage row and of the plan list is taken as given text, and the billing dictionary is passed as a value rather than as its `str()`.
- Graph.TelecomState.Finalize requires the intermediate responses to hold exactly the "result" entry, which every node writes. Dictionary insertion order is not modelled.
- `make_placeholder` (orchestration/graph.py:179-185) is not modelled: no node uses it.
- The `Settings.llm` and `Settings.embed_model` configuration side effects are not modelled.
- Streamlit rendering is not modelled: displaying past messages with `$` escaped, the input placeholder, the warning text, `st.rerun`. The chat input is an `Option<string>`.
- The conversation history reaches the graph state but no node reads it. The model passes it to the state and nothing more.
- Service.ProcessPlanQuery: building the advisor client (agents/service_agents.py:88, before the cancellation check) and binding its tools (line 112) run outside the `try`, so a failure there would propagate out of the handler and the graph. The model takes both not to raise, so the plan node never raises in it.
- utils/database.py, orchestration/state.py and the application entry point are not part of this model.

## Findings

| source | as written | input that shows it | evidently intended | confidence | as-written member | corrected member |
|---|---|---|---|---|---|---|
| agents/knowledge_agents.py:96 | the replacement token is "â‚¹", the UTF-8 bytes of the rupee sign read back as Windows-1252 | an engine answer "$50" | "₹50" (U+20B9 followed by the digits) | not executed | Knowledge.MisencodedHandlerExample | Knowledge.RupeeText |
