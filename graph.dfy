/**
 * The routing graph: the classifier's reply is parsed into a category, the router
 * sends the query to exactly one handler node, the node leaves its reply as the
 * single intermediate response, and the finalizer appends a footer naming the
 * other intents of a multi-intent query.
 */
module Graph {
  import opened Oracle
  import opened Store
  import opened Calls
  import opened Text
  import Billing
  import Service
  import Network
  import Knowledge

  const Categories: seq<string> := ["billing", "network", "plan", "knowledge"]
  const Fallback: string := "knowledge"
  const MultiIntentTag: string := "multi-intent"
  const MultiIntentPrefix: string := "multi-intent:"
  const DefaultCustomerId: string := "CUST001"
  const ResultKey: string := "result"

  // ----- parsing the classifier's reply -----

  /** What the classifier call gave: no client was configured, or the call returned or raised. */
  datatype ClassifierCall = NoClient | Reply(outcome: Fallible<string>)

  /**
   * What `classify_query` writes into the state. A key it leaves untouched is
   * `None`; `classification` is written on every path.
   */
  datatype ClassUpdate = ClassUpdate(classification: string, multiIntent: Option<bool>, allIntents: Option<seq<string>>)

  /** The comma-separated part of a multi-intent reply, each piece trimmed. */
  function CategoryTokens(result: string): seq<string> {
    StripEach(Split(Strip(ReplaceAll(result, MultiIntentPrefix, "")), ','))
  }

  /** `[cat for cat in tokens if cat in VALID_CATEGORIES]` */
  function FilterValid(tokens: seq<string>): (r: seq<string>)
    ensures |r| <= |tokens|
    ensures forall i :: 0 <= i < |r| ==> r[i] in Categories && r[i] in tokens
  {
    if tokens == [] then []
    else if tokens[0] in Categories then [tokens[0]] + FilterValid(tokens[1..])
    else FilterValid(tokens[1..])
  }

  /** The filter keeps every valid token, duplicates and order included: it distributes over concatenation. */
  lemma {:induction false} FilterValidConcat(a: seq<string>, b: seq<string>)
    ensures FilterValid(a + b) == FilterValid(a) + FilterValid(b)
    decreases |a|
  {
    if a == [] {
      assert a + b == b;
    } else {
      assert (a + b)[0] == a[0];
      assert (a + b)[1..] == a[1..] + b;
      FilterValidConcat(a[1..], b);
    }
  }

  /** The first valid token, if any: the primary category of a multi-intent reply. */
  function FirstValid(tokens: seq<string>): (r: Option<string>)
    ensures r.None? <==> FilterValid(tokens) == []
    ensures r.Some? ==> r.value == FilterValid(tokens)[0]
  {
    if tokens == [] then None
    else if tokens[0] in Categories then Some(tokens[0])
    else FirstValid(tokens[1..])
  }

  /** When the tokens before `i` hold no valid one, the first valid token is found from `i` on. */
  lemma {:induction false} FirstValidFrom(tokens: seq<string>, i: nat)
    requires i <= |tokens| && FirstValid(tokens[..i]).None?
    ensures FirstValid(tokens) == FirstValid(tokens[i..])
  {
    assert tokens == tokens[..i] + tokens[i..];
    FilterValidConcat(tokens[..i], tokens[i..]);
  }

  /** The loop that picks the primary category: the first valid token, scanning in order. */
  method PrimaryCategory(categories: seq<string>) returns (primary: Option<string>)
    ensures primary == FirstValid(categories)
    ensures primary.Some? ==> primary.value in Categories && primary.value in categories
  {
    primary := None;
    var i := 0;
    while i < |categories|
      invariant 0 <= i <= |categories|
      invariant FirstValid(categories[..i]).None?
    {
      if categories[i] in Categories {
        primary := Some(categories[i]);
        break;
      }
      assert categories[..i + 1] == categories[..i] + [categories[i]];
      FilterValidConcat(categories[..i], [categories[i]]);
      i := i + 1;
    }
    if i < |categories| {
      FirstValidFrom(categories, i);
    } else {
      assert categories[..i] == categories;
    }
  }

  /** `classify_query`'s decision, as a function of the classifier call. */
  function Classify(call: ClassifierCall): (u: ClassUpdate)
    ensures u.classification in Categories
    ensures call.NoClient? || call.outcome.Raised? ==> u == ClassUpdate(Fallback, None, None)
    ensures u.allIntents.Some? ==> u.multiIntent == Some(true)
    ensures u.multiIntent == Some(true) ==>
      u.allIntents.Some? && |u.allIntents.value| >= 1 && u.classification == u.allIntents.value[0]
  {
    match call
    case NoClient => ClassUpdate(Fallback, None, None)
    case Reply(Raised(_)) => ClassUpdate(Fallback, None, None)
    case Reply(Ok(content)) => ClassifyResult(Lower(Strip(content)))
  }

  /** The decision on the trimmed, lower-cased reply. */
  function ClassifyResult(result: string): ClassUpdate {
    if StartsWith(result, MultiIntentTag) then
      var tokens := CategoryTokens(result);
      match FirstValid(tokens)
      case Some(primary) => ClassUpdate(primary, Some(true), Some(FilterValid(tokens)))
      case None => ClassUpdate(Fallback, Some(false), None)
    else if result in Categories then ClassUpdate(result, Some(false), None)
    else ClassUpdate(Fallback, Some(false), None)
  }

  /** The parsing steps of `classify_query` on the trimmed, lower-cased reply, with the primary found by the loop. */
  method ParseResult(result: string) returns (u: ClassUpdate)
    ensures u == ClassifyResult(result)
    ensures u.classification in Categories
  {
    if StartsWith(result, MultiIntentTag) {
      var categories := CategoryTokens(result);
      var primary := PrimaryCategory(categories);
      if primary.Some? {
        u := ClassUpdate(primary.value, Some(true), Some(FilterValid(categories)));
      } else {
        u := ClassUpdate(Fallback, Some(false), None);
      }
    } else if result in Categories {
      u := ClassUpdate(result, Some(false), None);
    } else {
      u := ClassUpdate(Fallback, Some(false), None);
    }
  }

  /** `classify_query`'s decision, step by step: the fallbacks, then the parse of the reply. */
  method ClassifyCall(call: ClassifierCall) returns (u: ClassUpdate)
    ensures u == Classify(call)
  {
    if call.NoClient? || call.outcome.Raised? {
      return ClassUpdate(Fallback, None, None);
    }
    u := ParseResult(Lower(Strip(call.outcome.value)));
  }

  /** A reply that is exactly one category, once trimmed and lower-cased, is taken as a single intent. */
  lemma SingleCategoryReply(content: string)
    requires Lower(Strip(content)) in Categories
    ensures Classify(Reply(Ok(content))) == ClassUpdate(Lower(Strip(content)), Some(false), None)
  {
    var result := Lower(Strip(content));
    assert |result| < |MultiIntentTag|;
  }

  /** Any other reply that does not start with the multi-intent tag falls back to the knowledge handler. */
  lemma UnrecognisedReply(content: string)
    requires !StartsWith(Lower(Strip(content)), MultiIntentTag) && Lower(Strip(content)) !in Categories
    ensures Classify(Reply(Ok(content))) == ClassUpdate(Fallback, Some(false), None)
  {
  }

  /**
   * A multi-intent reply: the primary is the first valid token and all_intents is
   * every valid token in order; with no valid token the query falls back.
   */
  lemma MultiIntentReply(content: string)
    requires StartsWith(Lower(Strip(content)), MultiIntentTag)
    ensures var tokens := CategoryTokens(Lower(Strip(content)));
      && (FilterValid(tokens) != [] ==>
          Classify(Reply(Ok(content))) == ClassUpdate(FilterValid(tokens)[0], Some(true), Some(FilterValid(tokens))))
      && (FilterValid(tokens) == [] ==> Classify(Reply(Ok(content))) == ClassUpdate(Fallback, Some(false), None))
  {
    var result := Lower(Strip(content));
    assert Classify(Reply(Ok(content))) == ClassifyResult(result);
    var tokens := CategoryTokens(result);
    var first := FirstValid(tokens);
    assert first.None? <==> FilterValid(tokens) == [];
  }

  // ----- routing -----

  datatype Node = BillingNode | NetworkNode | PlanNode | KnowledgeNode

  /** The node names the graph registers. */
  function NodeName(n: Node): string {
    match n
    case BillingNode => "billing_node"
    case NetworkNode => "network_node"
    case PlanNode => "plan_node"
    case KnowledgeNode => "knowledge_node"
  }

  /** The category a node serves. */
  function CategoryOf(n: Node): (c: string)
    ensures c in Categories
  {
    match n
    case BillingNode => "billing"
    case NetworkNode => "network"
    case PlanNode => "plan"
    case KnowledgeNode => "knowledge"
  }

  /** `router`: a dictionary lookup with the knowledge node as default. */
  function Route(classification: string): (n: Node)
    ensures classification in Categories ==> CategoryOf(n) == classification
    ensures classification !in Categories ==> n == KnowledgeNode
    ensures NodeName(n) == (if classification in Categories then classification + "_node" else "knowledge_node")
  {
    if classification == "billing" then BillingNode
    else if classification == "network" then NetworkNode
    else if classification == "plan" then PlanNode
    else KnowledgeNode
  }

  /** Every node is reached, by its own category and by no other. */
  lemma RouteIsOnto(n: Node)
    ensures Route(CategoryOf(n)) == n
    ensures forall c :: c in Categories && Route(c) == n ==> c == CategoryOf(n)
  {
  }

  // ----- the customer id for billing and plans -----

  /** The customer id the billing and plan nodes pass on: looked up by e-mail, "CUST001" otherwise. */
  function CustomerIdFor(tables: Tables, email: string): (id: string)
    ensures email != [] && email in tables.customersByEmail ==> id == tables.customersByEmail[email].customerId
    ensures email == [] || email !in tables.customersByEmail ==> id == DefaultCustomerId
  {
    if email != [] then
      match CustomerByEmail(tables, email)
      case Some(c) => c.customerId
      case None => DefaultCustomerId
    else DefaultCustomerId
  }

  /** The lookup steps the billing and plan nodes make before calling their handler. */
  function IdLookupSteps(email: string): seq<Step> {
    if email != [] then [CustomerLookup(email)] else []
  }

  // ----- finalize -----

  /** `intent_names.get(i, i)` */
  function Label(intent: string): string {
    if intent == "billing" then "billing"
    else if intent == "network" then "network issues"
    else if intent == "plan" then "plan recommendations"
    else if intent == "knowledge" then "general questions"
    else intent
  }

  /** Different categories get different labels, so the footer can be read back. */
  lemma LabelInjective(a: string, b: string)
    requires a in Categories && b in Categories && Label(a) == Label(b)
    ensures a == b
  {
  }

  function Labels(intents: seq<string>): (r: seq<string>)
    ensures |r| == |intents| && forall i :: 0 <= i < |r| ==> r[i] == Label(intents[i])
  {
    if intents == [] then [] else [Label(intents[0])] + Labels(intents[1..])
  }

  /** `[intent for intent in all_intents if intent != classification]` */
  function OtherIntents(all: seq<string>, classification: string): (r: seq<string>)
    ensures |r| <= |all|
    ensures forall i :: 0 <= i < |r| ==> r[i] != classification && r[i] in all
    ensures forall i :: 0 <= i < |all| && all[i] != classification ==> all[i] in r
  {
    if all == [] then []
    else if all[0] != classification then [all[0]] + OtherIntents(all[1..], classification)
    else OtherIntents(all[1..], classification)
  }

  /** The comprehension keeps the other intents in order, duplicates included: it distributes over concatenation. */
  lemma {:induction false} OtherIntentsConcat(a: seq<string>, b: seq<string>, classification: string)
    ensures OtherIntents(a + b, classification) == OtherIntents(a, classification) + OtherIntents(b, classification)
    decreases |a|
  {
    if a == [] {
      assert a + b == b;
    } else {
      assert (a + b)[0] == a[0];
      assert (a + b)[1..] == a[1..] + b;
      OtherIntentsConcat(a[1..], b, classification);
    }
  }

  /** One intent is kept exactly when it differs from the classification. */
  lemma OtherIntentsSingle(intent: string, classification: string)
    ensures OtherIntents([intent], classification) == if intent != classification then [intent] else []
  {
    assert [intent][1..] == [];
  }

  /** An intent named twice is listed twice, in the order it was named. */
  lemma OtherIntentsKeepsRepeats()
    ensures OtherIntents(["billing", "network", "plan", "network"], "billing") == ["network", "plan", "network"]
  {
    var all := ["billing", "network", "plan", "network"];
    assert all == ["billing"] + (["network"] + (["plan"] + ["network"]));
    OtherIntentsConcat(["billing"], ["network"] + (["plan"] + ["network"]), "billing");
    OtherIntentsConcat(["network"], ["plan"] + ["network"], "billing");
    OtherIntentsConcat(["plan"], ["network"], "billing");
    OtherIntentsSingle("billing", "billing");
    OtherIntentsSingle("network", "billing");
    OtherIntentsSingle("plan", "billing");
  }

  const FooterHead: string := "\n\n\U{1F4A1} *I noticed you also asked about "
  const FooterTail: string := ". Feel free to ask about that separately!*"

  function Footer(others: seq<string>): string {
    FooterHead + Join(Labels(others), ", ") + FooterTail
  }

  /** Whether `finalize` appends the footer. */
  predicate WantsFooter(classification: Option<string>, multiIntent: Option<bool>, allIntents: Option<seq<string>>) {
    var all := allIntents.GetOr([]);
    multiIntent.GetOr(false) && |all| > 1 && OtherIntents(all, classification.GetOr("")) != []
  }

  /** `finalize`'s text: the handler's reply, with the footer when the query had other intents. */
  function FinalText(response: string, classification: Option<string>, multiIntent: Option<bool>,
                     allIntents: Option<seq<string>>): (r: string)
    ensures WantsFooter(classification, multiIntent, allIntents) ==>
      r == response + Footer(OtherIntents(allIntents.value, classification.GetOr("")))
    ensures !WantsFooter(classification, multiIntent, allIntents) ==> r == response
  {
    if WantsFooter(classification, multiIntent, allIntents) then
      response + Footer(OtherIntents(allIntents.value, classification.GetOr("")))
    else response
  }

  /** A billing-and-network query answered by the billing node mentions network issues at the end. */
  lemma FooterExample(response: string)
    ensures FinalText(response, Some("billing"), Some(true), Some(["billing", "network"]))
      == response + FooterHead + "network issues" + FooterTail
  {
    var all := ["billing", "network"];
    assert all[1..] == ["network"] && all[1..][1..] == [];
    assert OtherIntents(all, "billing") == ["network"];
    assert Labels(["network"]) == ["network issues"];
    assert Join(["network issues"], ", ") == "network issues";
    assert WantsFooter(Some("billing"), Some(true), Some(all));
  }

  /** A query whose intents are all the primary one gets no footer, however many times it was named. */
  lemma RepeatedPrimaryNoFooter(response: string, primary: string, all: seq<string>)
    requires forall i :: 0 <= i < |all| ==> all[i] == primary
    ensures FinalText(response, Some(primary), Some(true), Some(all)) == response
  {
    assert OtherIntents(all, primary) == [] by {
      OtherIntentsOfPrimary(all, primary);
    }
  }

  lemma {:induction false} OtherIntentsOfPrimary(all: seq<string>, primary: string)
    requires forall i :: 0 <= i < |all| ==> all[i] == primary
    ensures OtherIntents(all, primary) == []
    decreases |all|
  {
    if all != [] {
      OtherIntentsOfPrimary(all[1..], primary);
    }
  }

  // ----- one run of the graph -----

  datatype Role = User | Assistant

  /** One chat message as the graph receives it. */
  datatype Turn = Turn(role: Role, content: string)

  /** What every outside service does during one run of the graph. */
  datatype World = World(
    classifier: ClassifierCall,
    tables: Tables,
    lookupFault: Option<string>,            // the network handler's customer query raises
    verdict: Fallible<string>,              // the relevance model's answer to the shared gate
    crew: Fallible<string>,                 // the billing crew
    advisor: Fallible<string>,              // the plan advisor model
    transcript: Fallible<seq<Network.AgentMessage>>, // the troubleshooting chat
    knowledge: Knowledge.KnowledgeWorld)

  /** What the network handler's customer query returns or raises. */
  function NetworkLookup(w: World, email: string): Fallible<Option<Customer>> {
    match w.lookupFault
    case Some(e) => Raised(e)
    case None => Ok(CustomerByEmail(w.tables, email))
  }

  /** The node's handler call, with the billing and plan nodes' own customer-id lookup in front. */
  function NodeRun(n: Node, query: string, email: string, w: World, kbReady: bool): Handled {
    match n
    case BillingNode =>
      var h := Billing.ProcessBillingQuery(query, CustomerIdFor(w.tables, email), w.verdict, w.tables, w.crew);
      Handled(h.reply, IdLookupSteps(email) + h.trace)
    case NetworkNode =>
      Network.NetworkRun(query, email, w.verdict, NetworkLookup(w, email), w.transcript)
    case PlanNode =>
      var h := Service.ProcessPlanQuery(query, CustomerIdFor(w.tables, email), w.verdict, w.tables, w.advisor);
      Handled(h.reply, IdLookupSteps(email) + h.trace)
    case KnowledgeNode =>
      Knowledge.KnowledgeRun(query, kbReady, w.knowledge, Knowledge.Rupee)
  }

  /** What the caller reads from the final state. */
  datatype Outcome = Outcome(classification: string, finalResponse: string)

  /**
   * `graph.invoke`: classify, route, run one handler node, finalize. A handler's
   * exception leaves the graph.
   */
  function Pipeline(query: string, email: string, w: World, kbReady: bool): (r: Fallible<Outcome>)
    ensures r.Ok? ==> r.value.classification in Categories
    ensures r.Ok? ==> var reply := NodeRun(Route(r.value.classification), query, email, w, kbReady).reply;
      reply.Ok? && StartsWith(r.value.finalResponse, reply.value)
      && (r.value.finalResponse != reply.value ==> Classify(w.classifier).multiIntent == Some(true))
    // the run reports the classifier's decision and the routed node's reply, finalized
    ensures var u := Classify(w.classifier);
      r.Ok? ==> && r.value.classification == u.classification
                && r.value.finalResponse ==
                   FinalText(NodeRun(Route(u.classification), query, email, w, kbReady).reply.value,
                             Some(u.classification), u.multiIntent, u.allIntents)
    // the run raises exactly when the routed node raises, and only the billing crew and the network chat can
    ensures r.Raised? <==> NodeRun(Route(Classify(w.classifier).classification), query, email, w, kbReady).reply.Raised?
    ensures r.Raised? ==> Route(Classify(w.classifier).classification) in {BillingNode, NetworkNode}
  {
    var u := Classify(w.classifier);
    var h := NodeRun(Route(u.classification), query, email, w, kbReady);
    match h.reply
    case Raised(e) => Raised(e)
    case Ok(response) =>
      var text := FinalText(response, Some(u.classification), u.multiIntent, u.allIntents);
      assert text[..|response|] == response;
      Ok(Outcome(u.classification, text))
  }

  /** The `TelecomState` dictionary one run of the graph threads through its nodes. */
  class TelecomState {
    var query: string
    var chatHistory: seq<Turn>
    var email: string
    var classification: Option<string>
    var multiIntent: Option<bool>
    var allIntents: Option<seq<string>>
    var intermediateResponses: map<string, string>
    var finalResponse: Option<string>

    /** The initial state the chat interface passes in. */
    constructor (query: string, chatHistory: seq<Turn>, email: string)
      ensures this.query == query && this.chatHistory == chatHistory && this.email == email
      ensures classification == None && multiIntent == None && allIntents == None
      ensures intermediateResponses == map[] && finalResponse == None
    {
      this.query := query;
      this.chatHistory := chatHistory;
      this.email := email;
      classification := None;
      multiIntent := None;
      allIntents := None;
      intermediateResponses := map[];
      finalResponse := None;
    }

    /** `classify_query`: writes the classification, and the multi-intent keys where the reply sets them. */
    method ClassifyQuery(call: ClassifierCall)
      modifies this
      ensures classification == Some(Classify(call).classification)
      ensures multiIntent == (if Classify(call).multiIntent.Some? then Classify(call).multiIntent else old(multiIntent))
      ensures allIntents == (if Classify(call).allIntents.Some? then Classify(call).allIntents else old(allIntents))
      ensures query == old(query) && chatHistory == old(chatHistory) && email == old(email)
      ensures intermediateResponses == old(intermediateResponses) && finalResponse == old(finalResponse)
    {
      var update := ClassifyCall(call);
      Apply(update);
    }

    /** Writes the keys `classify_query` sets, leaving the others alone. */
    method Apply(u: ClassUpdate)
      modifies this
      ensures classification == Some(u.classification)
      ensures multiIntent == (if u.multiIntent.Some? then u.multiIntent else old(multiIntent))
      ensures allIntents == (if u.allIntents.Some? then u.allIntents else old(allIntents))
      ensures query == old(query) && chatHistory == old(chatHistory) && email == old(email)
      ensures intermediateResponses == old(intermediateResponses) && finalResponse == old(finalResponse)
    {
      classification := Some(u.classification);
      if u.multiIntent.Some? {
        multiIntent := u.multiIntent;
      }
      if u.allIntents.Some? {
        allIntents := u.allIntents;
      }
    }

    /** The billing node: customer id by e-mail, then the billing handler; its exception propagates. */
    method RunBillingAgent(w: World) returns (failure: Option<string>)
      modifies this
      ensures failure == FailureOf(NodeRun(BillingNode, query, email, w, false).reply)
      ensures intermediateResponses == ResponsesAfter(old(intermediateResponses), NodeRun(BillingNode, query, email, w, false).reply)
      ensures query == old(query) && chatHistory == old(chatHistory) && email == old(email)
      ensures classification == old(classification) && multiIntent == old(multiIntent) && allIntents == old(allIntents)
      ensures finalResponse == old(finalResponse)
    {
      var h := NodeRun(BillingNode, query, email, w, false);
      match h.reply {
        case Raised(e) =>
          failure := Some(e);
        case Ok(response) =>
          intermediateResponses := map[ResultKey := response];
          failure := None;
      }
    }

    /** The network node: the handler runs on the shared group chat; its exception propagates. */
    method RunNetworkAgent(w: World, chat: Network.GroupChat) returns (failure: Option<string>)
      modifies this, chat
      ensures failure == FailureOf(NodeRun(NetworkNode, query, email, w, false).reply)
      ensures intermediateResponses == ResponsesAfter(old(intermediateResponses), NodeRun(NetworkNode, query, email, w, false).reply)
      ensures ChatReset in NodeRun(NetworkNode, query, email, w, false).trace ==>
        chat.messages == (if w.transcript.Ok? then w.transcript.value else [])
      ensures ChatReset !in NodeRun(NetworkNode, query, email, w, false).trace ==> chat.messages == old(chat.messages)
      ensures query == old(query) && chatHistory == old(chatHistory) && email == old(email)
      ensures classification == old(classification) && multiIntent == old(multiIntent) && allIntents == old(allIntents)
      ensures finalResponse == old(finalResponse)
    {
      var h := Network.ProcessNetworkQuery(chat, query, email, w.verdict, NetworkLookup(w, email), w.transcript);
      match h.reply {
        case Raised(e) =>
          failure := Some(e);
        case Ok(response) =>
          intermediateResponses := map[ResultKey := response];
          failure := None;
      }
    }

    /** The plan node: customer id by e-mail, then the plan handler, which never raises. */
    method RunPlanAgent(w: World)
      modifies this
      ensures NodeRun(PlanNode, query, email, w, false).reply.Ok?
      ensures intermediateResponses == map[ResultKey := NodeRun(PlanNode, query, email, w, false).reply.value]
      ensures query == old(query) && chatHistory == old(chatHistory) && email == old(email)
      ensures classification == old(classification) && multiIntent == old(multiIntent) && allIntents == old(allIntents)
      ensures finalResponse == old(finalResponse)
    {
      var h := NodeRun(PlanNode, query, email, w, false);
      intermediateResponses := map[ResultKey := h.reply.value];
    }

    /** The knowledge node: the handler runs on the shared engine state and never raises. */
    method RunKnowledgeAgent(w: World, kb: Knowledge.KnowledgeBase)
      requires kb.Valid()
      modifies this, kb
      ensures kb.Valid()
      ensures NodeRun(KnowledgeNode, query, email, w, old(kb.initialized)).reply.Ok?
      ensures intermediateResponses == map[ResultKey := NodeRun(KnowledgeNode, query, email, w, old(kb.initialized)).reply.value]
      ensures kb.initialized <==> old(kb.initialized) || w.knowledge.buildFault.None?
      ensures query == old(query) && chatHistory == old(chatHistory) && email == old(email)
      ensures classification == old(classification) && multiIntent == old(multiIntent) && allIntents == old(allIntents)
      ensures finalResponse == old(finalResponse)
    {
      var h := kb.ProcessKnowledgeQuery(query, w.knowledge, Knowledge.Rupee);
      intermediateResponses := map[ResultKey := h.reply.value];
    }

    /** The node the router picked, run on this state. */
    method RunNode(n: Node, w: World, chat: Network.GroupChat, kb: Knowledge.KnowledgeBase) returns (failure: Option<string>)
      requires kb.Valid()
      modifies this, chat, kb
      ensures kb.Valid()
      ensures failure == FailureOf(NodeRun(n, query, email, w, old(kb.initialized)).reply)
      ensures intermediateResponses == ResponsesAfter(old(intermediateResponses), NodeRun(n, query, email, w, old(kb.initialized)).reply)
      ensures n != NetworkNode ==> chat.messages == old(chat.messages)
      ensures n == NetworkNode ==> ChatAfter(NodeRun(NetworkNode, query, email, w, false).trace, w, old(chat.messages), chat.messages)
      ensures n != KnowledgeNode ==> kb.initialized == old(kb.initialized)
      ensures n == KnowledgeNode ==> (kb.initialized <==> old(kb.initialized) || w.knowledge.buildFault.None?)
      ensures query == old(query) && chatHistory == old(chatHistory) && email == old(email)
      ensures classification == old(classification) && multiIntent == old(multiIntent) && allIntents == old(allIntents)
      ensures finalResponse == old(finalResponse)
    {
      match n {
        case BillingNode =>
          failure := RunBillingAgent(w);
        case NetworkNode =>
          failure := RunNetworkAgent(w, chat);
        case PlanNode =>
          RunPlanAgent(w);
          failure := None;
        case KnowledgeNode =>
          RunKnowledgeAgent(w, kb);
          failure := None;
      }
    }

    /** `finalize`: the single intermediate response, with the footer when it applies. */
    method Finalize()
      requires intermediateResponses.Keys == {ResultKey}
      modifies this
      ensures intermediateResponses == old(intermediateResponses)
      ensures finalResponse == Some(FinalText(intermediateResponses[ResultKey], classification, multiIntent, allIntents))
      ensures query == old(query) && chatHistory == old(chatHistory) && email == old(email)
      ensures classification == old(classification) && multiIntent == old(multiIntent) && allIntents == old(allIntents)
    {
      var response := intermediateResponses[ResultKey];
      if multiIntent.GetOr(false) {
        var all := allIntents.GetOr([]);
        if |all| > 1 {
          var others := OtherIntents(all, classification.GetOr(""));
          if others != [] {
            response := response + Footer(others);
          }
        }
      }
      finalResponse := Some(response);
    }
  }

  /**
   * The group chat's messages after the network node: this run's transcript when
   * the chat was reset and run, the messages from before otherwise.
   */
  predicate ChatAfter(trace: seq<Step>, w: World, before: seq<Network.AgentMessage>, after: seq<Network.AgentMessage>) {
    if ChatReset in trace then after == (if w.transcript.Ok? then w.transcript.value else []) else after == before
  }

  /**
   * The shared objects after one run of the graph: only the network node touches
   * the group chat, and only the knowledge node the engine state, which is then
   * built iff it was built before or the build succeeded.
   */
  predicate SharedAfter(query: string, email: string, w: World,
                        chatBefore: seq<Network.AgentMessage>, chatAfter: seq<Network.AgentMessage>,
                        readyBefore: bool, readyAfter: bool) {
    var n := Route(Classify(w.classifier).classification);
    && (if n == NetworkNode then ChatAfter(NodeRun(NetworkNode, query, email, w, false).trace, w, chatBefore, chatAfter)
        else chatAfter == chatBefore)
    && (if n == KnowledgeNode then (readyAfter <==> readyBefore || w.knowledge.buildFault.None?)
        else readyAfter == readyBefore)
  }

  /** The exception a node lets through, if any. */
  function FailureOf(reply: Fallible<string>): Option<string> {
    match reply
    case Raised(e) => Some(e)
    case Ok(_) => None
  }

  /** A node that returns replaces the intermediate responses with the single entry {"result": reply}. */
  function ResponsesAfter(before: map<string, string>, reply: Fallible<string>): map<string, string> {
    match reply
    case Raised(_) => before
    case Ok(response) => map[ResultKey := response]
  }

  /**
   * `graph.invoke` on a fresh state: exactly one handler node runs, and the
   * result is what the pure pipeline describes. Only the network node touches
   * the group chat.
   */
  method Invoke(query: string, history: seq<Turn>, email: string, w: World,
                chat: Network.GroupChat, kb: Knowledge.KnowledgeBase) returns (r: Fallible<Outcome>)
    requires kb.Valid()
    modifies chat, kb
    ensures kb.Valid()
    ensures r == Pipeline(query, email, w, old(kb.initialized))
    ensures SharedAfter(query, email, w, old(chat.messages), chat.messages, old(kb.initialized), kb.initialized)
  {
    var state := new TelecomState(query, history, email);
    state.ClassifyQuery(w.classifier);
    var node := Route(state.classification.value);
    var failure := state.RunNode(node, w, chat, kb);
    if failure.Some? {
      return Raised(failure.value);
    }
    state.Finalize();
    r := Ok(Outcome(state.classification.value, state.finalResponse.value));
  }
}
