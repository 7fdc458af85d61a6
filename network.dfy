/**
 * The network handler: relevance gate, the customer lookup with its two
 * unknown-caller exits, the reset of the shared group chat, and the extraction
 * of the answer from the chat transcript.
 */
module Network {
  import opened Oracle
  import opened Store
  import opened Calls
  import opened Text
  import opened Guardrail

  /** One entry of a chat transcript: the speaking agent's name and what it said. */
  datatype AgentMessage = AgentMessage(name: string, content: string)

  const ProxyName: string := "User_Proxy"
  const Sentinel: string := "TERMINATE"
  const NetworkCollection: string := "network_docs"

  const NoDiagnosis: string :=
    "I'm sorry, I couldn't diagnose "
    + "the network issue at this time."
  const NoAccount: string :=
    "I'm sorry, but I couldn't identify your account. "
    + "Please make sure you're logged in "
    + "with a valid email address."

  const NotRegisteredHead: string := "I'm sorry, but the email '"
  const NotRegisteredTail: string :=
    "' is not registered in our system. "
    + "Please contact customer service "
    + "to verify your account details."

  function NotRegistered(email: string): string {
    NotRegisteredHead + email + NotRegisteredTail
  }

  /** An unknown caller is told which address was not found. */
  lemma NotRegisteredNamesEmail(email: string)
    ensures Contains(NotRegistered(email), email)
  {
    ContainsSelfInMiddle(NotRegisteredHead, email, NotRegisteredTail);
  }

  /** Python's rendering of a nullable text column in an f-string. */
  function ColumnText(v: Option<string>): string {
    match v
    case Some(s) => s
    case None => "None"
  }

  /** The preamble the chat gets for a known customer. */
  function CustomerContext(c: Customer): string {
    "\nCUSTOMER INFORMATION (CHECK THIS FIRST!):\n"
    + "- Customer Name: " + c.name
    + "\n- Account Status: " + c.accountStatus
    + " ← **CRITICAL: Check this first!**\n"
    + "- Current Plan: "
    + ColumnText(c.planName) + "\n"
  }

  /** The preamble the chat gets when the customer lookup raised. */
  function LookupErrorContext(error: string): string {
    "Error fetching customer data: " + error
    + "\nProceeding with generic troubleshooting."
  }

  // ----- extracting the answer -----

  /** `[m for m in history if m['name'] != 'User_Proxy']` */
  function AgentReplies(history: seq<AgentMessage>): (r: seq<AgentMessage>)
    ensures |r| <= |history|
    ensures forall i :: 0 <= i < |r| ==> r[i].name != ProxyName && r[i] in history
  {
    if history == [] then []
    else
      var rest := AgentReplies(history[..|history| - 1]);
      var m := history[|history| - 1];
      if m.name == ProxyName then rest else rest + [m]
  }

  /** Filtering keeps every agent message, in order: it distributes over concatenation. */
  lemma {:induction false} AgentRepliesConcat(h1: seq<AgentMessage>, h2: seq<AgentMessage>)
    ensures AgentReplies(h1 + h2) == AgentReplies(h1) + AgentReplies(h2)
    decreases |h2|
  {
    if h2 == [] {
      assert h1 + h2 == h1;
    } else {
      var init := h2[..|h2| - 1];
      assert (h1 + h2)[..|h1 + h2| - 1] == h1 + init;
      AgentRepliesConcat(h1, init);
    }
  }

  /** `last_msg.replace("TERMINATE", "").strip()` */
  function CleanReply(content: string): string {
    Strip(ReplaceAll(content, Sentinel, ""))
  }

  /** The reply the handler returns for a finished chat. */
  function ExtractFinalResponse(history: seq<AgentMessage>): (r: string)
    ensures AgentReplies(history) == [] ==> r == NoDiagnosis
    ensures AgentReplies(history) != [] ==>
      r == CleanReply(AgentReplies(history)[|AgentReplies(history)| - 1].content)
  {
    if history != [] then
      var agents := AgentReplies(history);
      if agents != [] then CleanReply(agents[|agents| - 1].content) else NoDiagnosis
    else NoDiagnosis
  }

  /** The last agent to speak decides the answer, whatever came before. */
  lemma LastAgentDecides(history: seq<AgentMessage>, m: AgentMessage)
    requires m.name != ProxyName
    ensures ExtractFinalResponse(history + [m]) == CleanReply(m.content)
  {
    AgentRepliesConcat(history, [m]);
    assert AgentReplies([m]) == [m] by {
      assert [m][..0] == [];
    }
  }

  /** Messages from the user proxy are skipped. */
  lemma ProxyMessagesIgnored(history: seq<AgentMessage>, m: AgentMessage)
    requires m.name == ProxyName
    ensures ExtractFinalResponse(history + [m]) == ExtractFinalResponse(history)
  {
    AgentRepliesConcat(history, [m]);
    assert AgentReplies([m]) == [] by {
      assert [m][..0] == [];
    }
  }

  /** A transcript holding only proxy messages gets the fixed fallback. */
  lemma OnlyProxyMeansFallback(history: seq<AgentMessage>)
    requires forall i :: 0 <= i < |history| ==> history[i].name == ProxyName
    ensures ExtractFinalResponse(history) == NoDiagnosis
  {
    OnlyProxyNoReplies(history);
  }

  lemma {:induction false} OnlyProxyNoReplies(history: seq<AgentMessage>)
    requires forall i :: 0 <= i < |history| ==> history[i].name == ProxyName
    ensures AgentReplies(history) == []
    decreases |history|
  {
    if history != [] {
      OnlyProxyNoReplies(history[..|history| - 1]);
    }
  }

  /** A reply that never says TERMINATE is only trimmed. */
  lemma CleanReplyWithoutSentinel(content: string)
    requires !Contains(content, Sentinel)
    ensures CleanReply(content) == Strip(content)
  {
    ReplaceAllAbsent(content, Sentinel, "");
  }

  /**
   * The usual closing: an answer that ends with TERMINATE (after a character that
   * cannot belong to it) comes back as the answer without it, trimmed.
   */
  lemma CleanReplyDropsClosingSentinel(body: string)
    requires body == [] || body[|body| - 1] !in Sentinel
    requires !Contains(body, Sentinel)
    ensures CleanReply(body + Sentinel) == Strip(body)
  {
    ReplaceAllSplits(body, Sentinel, Sentinel, "");
    ReplaceAllAbsent(body, Sentinel, "");
    ReplaceAllSelf(Sentinel, "");
    assert body + [] == body;
  }

  // ----- the shared group chat -----

  /** The module-level group chat; the handler empties its message list before every chat. */
  class GroupChat {
    var messages: seq<AgentMessage>

    constructor ()
      ensures messages == []
    {
      messages := [];
    }

    /** `groupchat.messages = []` */
    method Reset()
      modifies this
      ensures messages == []
    {
      messages := [];
    }

    /** A chat run records its transcript in the group chat. */
    method Record(transcript: seq<AgentMessage>)
      modifies this
      ensures messages == old(messages) + transcript
    {
      messages := messages + transcript;
    }
  }

  // ----- the handler -----

  /**
   * The context the chat is started with: the customer preamble for a known
   * caller, the error preamble when the lookup raised, and none for an unknown
   * caller, who is turned away instead.
   */
  function ChatContext(lookup: Fallible<Option<Customer>>): Option<string> {
    match lookup
    case Ok(None) => None
    case Ok(Some(c)) => Some(CustomerContext(c))
    case Raised(e) => Some(LookupErrorContext(e))
  }

  /** The reply to an unknown caller, depending on whether an e-mail was given at all. */
  function UnknownCallerReply(email: string): string {
    if email != [] then NotRegistered(email) else NoAccount
  }

  /** What the chat's outcome makes of the reply: the extracted answer, or the exception passed on. */
  function ChatReply(transcript: Fallible<seq<AgentMessage>>): Fallible<string> {
    match transcript
    case Ok(history) => Ok(ExtractFinalResponse(history))
    case Raised(e) => Raised(e)
  }

  /**
   * `process_network_query`, given the relevance verdict, what the customer lookup
   * returned or raised, and what the group chat returned or raised. The chat's
   * exception is not caught here.
   */
  function NetworkRun(query: string, email: string, verdict: Fallible<string>,
                      lookup: Fallible<Option<Customer>>, transcript: Fallible<seq<AgentMessage>>): (h: Handled)
    ensures |h.trace| >= 1 && h.trace[0] == RelevanceCheck
    ensures !CheckTelecomRelevance(verdict).0 ==> h == Handled(Ok(Apology), [RelevanceCheck])
    // an unknown caller is turned away before retrieval and chat
    ensures CheckTelecomRelevance(verdict).0 && ChatContext(lookup).None? ==>
      h == Handled(Ok(UnknownCallerReply(email)), [RelevanceCheck, CustomerLookup(email)])
    // a lookup failure does not abort: the chat runs with the error context
    ensures CheckTelecomRelevance(verdict).0 && ChatContext(lookup).Some? ==>
      && h.trace == [RelevanceCheck, CustomerLookup(email), Retrieval(NetworkCollection), ChatReset,
                     GroupChatRun(ChatContext(lookup).value)]
      && h.reply == ChatReply(transcript)
  {
    var (relevant, rejection) := CheckTelecomRelevance(verdict);
    if !relevant then Handled(Ok(rejection), [RelevanceCheck])
    else
      var before := [RelevanceCheck, CustomerLookup(email)];
      match ChatContext(lookup)
      case None => Handled(Ok(UnknownCallerReply(email)), before)
      case Some(context) =>
        Handled(ChatReply(transcript), before + [Retrieval(NetworkCollection), ChatReset, GroupChatRun(context)])
  }

  /** Only a caller the lookup did not find gets no chat context. */
  lemma ChatContextMissingOnlyWhenNotFound(lookup: Fallible<Option<Customer>>)
    ensures ChatContext(lookup).None? <==> lookup == Ok(None)
  {
  }

  /**
   * `process_network_query` on the shared group chat: the chat's message list is
   * emptied before the run and then holds exactly this run's transcript.
   */
  method ProcessNetworkQuery(chat: GroupChat, query: string, email: string, verdict: Fallible<string>,
                             lookup: Fallible<Option<Customer>>, transcript: Fallible<seq<AgentMessage>>)
    returns (h: Handled)
    modifies chat
    ensures h == NetworkRun(query, email, verdict, lookup, transcript)
    ensures ChatReset in h.trace ==> chat.messages == (if transcript.Ok? then transcript.value else [])
    ensures ChatReset !in h.trace ==> chat.messages == old(chat.messages)
  {
    h := NetworkRun(query, email, verdict, lookup, transcript);
    var (relevant, _) := CheckTelecomRelevance(verdict);
    if relevant && ChatContext(lookup).Some? {
      chat.Reset();
      if transcript.Ok? {
        chat.Record(transcript.value);
      }
    }
  }
}
