/**
 * The chat tab: it rejects empty prompts, keeps the per-tab message list, passes
 * the last ten messages (agent indicators removed) to the graph, and stores the
 * reply prefixed with the indicator of the agent that answered.
 */
module Chat {
  import opened Oracle
  import opened Text
  import opened Graph
  import Network
  import Knowledge

  const UnifiedTab: string := "AI Assistant"
  const UnifiedKey: string := "unified"
  const HistoryWindow: nat := 10

  /** The indicators an assistant message may start with, in the order they are tried. */
  const Indicators: seq<string> :=
    ["**Billing Agent**", "**Network Agent**", "**Plan Advisor**", "**Knowledge Base**", "**AI Assistant**"]

  const DefaultIndicator: string := "**AI Assistant**"
  const ErrorPrefix: string := "Error: "

  /** The message list a tab uses: the unified list for the assistant tab, its own name otherwise. */
  function MessageKey(tabName: string): string {
    if tabName == UnifiedTab then UnifiedKey else tabName
  }

  /** `messages[-10:]` */
  function RecentMessages(messages: seq<Turn>): (r: seq<Turn>)
    ensures |r| == if |messages| <= HistoryWindow then |messages| else HistoryWindow
    ensures r == messages[|messages| - |r|..]
  {
    if |messages| <= HistoryWindow then messages else messages[|messages| - HistoryWindow..]
  }

  // ----- indicators -----

  /** The indicator for the category that answered; unknown categories get the generic one. */
  function IndicatorFor(classification: string): (ind: string)
    ensures ind in Indicators
    ensures classification !in Categories ==> ind == DefaultIndicator
  {
    if classification == "billing" then Indicators[0]
    else if classification == "network" then Indicators[1]
    else if classification == "plan" then Indicators[2]
    else if classification == "knowledge" then Indicators[3]
    else DefaultIndicator
  }

  /** Each category has its own indicator, different from the generic one. */
  lemma IndicatorsDistinguishCategories(a: string, b: string)
    requires a in Categories && b in Categories
    ensures IndicatorFor(a) != DefaultIndicator
    ensures IndicatorFor(a) == IndicatorFor(b) ==> a == b
  {
  }

  /** The stored reply: the indicator, a blank line, the response (on the assistant tab only). */
  function FormatReply(tabName: string, classification: string, response: string): string {
    if tabName == UnifiedTab then IndicatorFor(classification) + "\n\n" + response else response
  }

  /** The first indicator, in list order, that the content starts with, removed once and the rest trimmed. */
  function StripFirstOf(content: string, indicators: seq<string>): string
    requires forall i :: 0 <= i < |indicators| ==> indicators[i] != []
  {
    if indicators == [] then content
    else if StartsWith(content, indicators[0]) then Strip(ReplaceFirst(content, indicators[0], ""))
    else StripFirstOf(content, indicators[1..])
  }

  function WithoutIndicator(content: string): string {
    StripFirstOf(content, Indicators)
  }

  /** The loop over the indicators, leaving at the first one that matches. */
  method StripIndicator(content: string) returns (r: string)
    ensures r == WithoutIndicator(content)
  {
    r := content;
    var i := 0;
    while i < |Indicators|
      invariant 0 <= i <= |Indicators|
      invariant r == content
      invariant WithoutIndicator(content) == StripFirstOf(content, Indicators[i..])
    {
      var indicator := Indicators[i];
      assert Indicators[i..][1..] == Indicators[i + 1..];
      if StartsWith(content, indicator) {
        r := Strip(ReplaceFirst(r, indicator, ""));
        return;
      }
      i := i + 1;
    }
  }

  /** Two different indicators already differ at their third character, so neither is a prefix of the other's text. */
  lemma IndicatorsDifferEarly(i: nat, j: nat, rest: string)
    requires i < |Indicators| && j < |Indicators| && i != j
    ensures !StartsWith(Indicators[j] + rest, Indicators[i])
  {
    assert (Indicators[j] + rest)[2] == Indicators[j][2];
  }

  lemma {:induction false} StripFirstOfFrom(j: nat, k: nat, rest: string)
    requires k <= j < |Indicators|
    ensures StripFirstOf(Indicators[j] + rest, Indicators[k..]) == Strip(rest)
    decreases j - k
  {
    var content := Indicators[j] + rest;
    if k == j {
      assert Indicators[k..][0] == Indicators[j];
      assert StartsWith(content, Indicators[j]);
      ReplaceFirstPrefix(Indicators[j], rest);
    } else {
      IndicatorsDifferEarly(k, j, rest);
      assert Indicators[k..][0] == Indicators[k];
      assert Indicators[k..][1..] == Indicators[k + 1..];
      StripFirstOfFrom(j, k + 1, rest);
    }
  }

  /** Exactly one indicator is removed: whatever follows it, even another indicator, is only trimmed. */
  lemma IndicatorStrippedOnce(j: nat, rest: string)
    requires j < |Indicators|
    ensures WithoutIndicator(Indicators[j] + rest) == Strip(rest)
  {
    StripFirstOfFrom(j, 0, rest);
    assert Indicators[0..] == Indicators;
  }

  /** A stored reply read back for context is the trimmed response. */
  lemma FormatReplyRoundTrip(classification: string, response: string)
    ensures WithoutIndicator(FormatReply(UnifiedTab, classification, response)) == Strip(response)
  {
    var ind := IndicatorFor(classification);
    var j :| 0 <= j < |Indicators| && Indicators[j] == ind;
    assert ind + "\n\n" + response == ind + ("\n\n" + response);
    IndicatorStrippedOnce(j, "\n\n" + response);
    StripSpacePrefix("\n\n", response);
  }

  /** Content that starts with no indicator is passed on as it is, not even trimmed. */
  lemma {:induction false} NoIndicatorUntouched(content: string, k: nat)
    requires k <= |Indicators|
    requires forall i :: k <= i < |Indicators| ==> !StartsWith(content, Indicators[i])
    ensures StripFirstOf(content, Indicators[k..]) == content
    decreases |Indicators| - k
  {
    if k < |Indicators| {
      assert Indicators[k..][0] == Indicators[k];
      assert Indicators[k..][1..] == Indicators[k + 1..];
      NoIndicatorUntouched(content, k + 1);
    }
  }

  // ----- the history handed to the graph -----

  /** A message as the graph sees it: user messages as typed, assistant messages without their indicator. */
  function ForContext(m: Turn): Turn {
    if m.role == Assistant then Turn(Assistant, WithoutIndicator(m.content)) else m
  }

  function ContextHistory(messages: seq<Turn>): (r: seq<Turn>)
    ensures |r| == |RecentMessages(messages)|
    ensures forall i :: 0 <= i < |r| ==> r[i] == ForContext(RecentMessages(messages)[i])
  {
    var recent := RecentMessages(messages);
    seq(|recent|, i requires 0 <= i < |recent| => ForContext(recent[i]))
  }

  /** The loop that builds `chat_history`. */
  method BuildChatHistory(messages: seq<Turn>) returns (history: seq<Turn>)
    ensures history == ContextHistory(messages)
  {
    var recent := RecentMessages(messages);
    history := [];
    var i := 0;
    while i < |recent|
      invariant 0 <= i <= |recent|
      invariant |history| == i
      invariant forall k :: 0 <= k < i ==> history[k] == ForContext(recent[k])
    {
      var msg := recent[i];
      var content := msg.content;
      if msg.role == Assistant {
        content := StripIndicator(content);
      }
      history := history + [Turn(msg.role, content)];
      i := i + 1;
    }
  }

  /**
   * The history passed with a prompt holds at most ten messages, the most recent
   * ones in order, and ends with the prompt itself.
   */
  lemma HistoryEndsWithPrompt(before: seq<Turn>, prompt: string)
    ensures var h := ContextHistory(before + [Turn(User, prompt)]);
      1 <= |h| <= HistoryWindow && h[|h| - 1] == Turn(User, prompt)
  {
    var all := before + [Turn(User, prompt)];
    var recent := RecentMessages(all);
    assert recent[|recent| - 1] == all[|all| - 1];
  }

  // ----- the session -----

  /** What one submission did. */
  datatype Submission =
    | NoInput                                   // the input box was empty
    | BlankPrompt                               // only white space: a warning, and nothing stored
    | Answered(history: seq<Turn>, stored: string) // the history handed to the graph and the reply stored

  /** The text stored for the graph's outcome: the formatted reply, or "Error: " and the message. */
  function ReplyText(tabName: string, r: Fallible<Outcome>): string {
    match r
    case Ok(outcome) => FormatReply(tabName, outcome.classification, outcome.finalResponse)
    case Raised(e) => ErrorPrefix + e
  }

  /** The message lists once the tab's list exists. */
  function WithList(messages: map<string, seq<Turn>>, key: string): (m: map<string, seq<Turn>>)
    ensures key in m && m[key] == (if key in messages then messages[key] else [])
  {
    if key in messages then messages else messages[key := []]
  }

  /** The `try` around `graph.invoke`: the text stored for the graph's outcome on this prompt. */
  method Answer(tabName: string, p: string, history: seq<Turn>, email: string, w: World,
                chat: Network.GroupChat, kb: Knowledge.KnowledgeBase) returns (stored: string)
    requires kb.Valid()
    modifies chat, kb
    ensures kb.Valid()
    ensures stored == ReplyText(tabName, Pipeline(p, email, w, old(kb.initialized)))
    ensures SharedAfter(p, email, w, old(chat.messages), chat.messages, old(kb.initialized), kb.initialized)
  {
    var r := Invoke(p, history, email, w, chat, kb);
    stored := ReplyText(tabName, r);
  }

  /** `st.session_state`: the message lists of the tabs and the signed-in user's e-mail. */
  class ChatSession {
    var messages: map<string, seq<Turn>>
    var userEmail: string

    constructor (userEmail: string)
      ensures messages == map[] && this.userEmail == userEmail
    {
      messages := map[];
      this.userEmail := userEmail;
    }

    /**
     * `render_chat_tab` for one submitted input: a blank prompt stores nothing;
     * otherwise the prompt is stored, the graph runs on it with the recent
     * history, and its reply (or its error) is stored after it.
     */
    method Submit(tabName: string, prompt: Option<string>, w: World,
                  chat: Network.GroupChat, kb: Knowledge.KnowledgeBase) returns (s: Submission)
      requires kb.Valid()
      modifies this, chat, kb
      ensures kb.Valid() && userEmail == old(userEmail)
      ensures prompt.None? || prompt.value == [] ==>
        s == NoInput && messages == WithList(old(messages), MessageKey(tabName))
      ensures prompt.Some? && prompt.value != [] && Strip(prompt.value) == [] ==>
        s == BlankPrompt && messages == WithList(old(messages), MessageKey(tabName))
      // nothing reaches the graph without a prompt
      ensures prompt.None? || Strip(prompt.value) == [] ==>
        chat.messages == old(chat.messages) && kb.initialized == old(kb.initialized)
      ensures prompt.Some? && Strip(prompt.value) != [] ==>
        SharedAfter(prompt.value, old(userEmail), w, old(chat.messages), chat.messages, old(kb.initialized), kb.initialized)
      ensures prompt.Some? && Strip(prompt.value) != [] ==>
        var key := MessageKey(tabName);
        var before := WithList(old(messages), key)[key] + [Turn(User, prompt.value)];
        var stored := ReplyText(tabName, Pipeline(prompt.value, old(userEmail), w, old(kb.initialized)));
        && s == Answered(ContextHistory(before), stored)
        && messages == WithList(old(messages), key)[key := before + [Turn(Assistant, stored)]]
    {
      var key := MessageKey(tabName);
      if key !in messages {
        messages := messages[key := []];
      }
      if prompt.None? || prompt.value == [] {
        return NoInput;
      }
      var p := prompt.value;
      if Strip(p) == [] {
        return BlankPrompt;
      }
      s := Send(tabName, p, w, chat, kb);
    }

    /** The part of `render_chat_tab` after the prompt was accepted. */
    method Send(tabName: string, p: string, w: World,
                chat: Network.GroupChat, kb: Knowledge.KnowledgeBase) returns (s: Submission)
      requires kb.Valid() && MessageKey(tabName) in messages
      modifies this, chat, kb
      ensures kb.Valid() && userEmail == old(userEmail)
      ensures var key := MessageKey(tabName);
        var before := old(messages)[key] + [Turn(User, p)];
        var stored := ReplyText(tabName, Pipeline(p, old(userEmail), w, old(kb.initialized)));
        && s == Answered(ContextHistory(before), stored)
        && messages == old(messages)[key := before + [Turn(Assistant, stored)]]
      ensures SharedAfter(p, old(userEmail), w, old(chat.messages), chat.messages, old(kb.initialized), kb.initialized)
    {
      var key := MessageKey(tabName);
      Append(key, Turn(User, p));
      var history := BuildChatHistory(messages[key]);
      var stored := Reply(tabName, p, history, w, chat, kb);
      s := Answered(history, stored);
    }

    /** Runs the graph on the prompt and appends its answer to the tab's history. */
    method Reply(tabName: string, p: string, history: seq<Turn>, w: World,
                 chat: Network.GroupChat, kb: Knowledge.KnowledgeBase) returns (stored: string)
      requires kb.Valid() && MessageKey(tabName) in messages
      modifies this, chat, kb
      ensures kb.Valid() && userEmail == old(userEmail)
      ensures stored == ReplyText(tabName, Pipeline(p, old(userEmail), w, old(kb.initialized)))
      ensures var key := MessageKey(tabName);
        messages == old(messages)[key := old(messages)[key] + [Turn(Assistant, stored)]]
      ensures SharedAfter(p, old(userEmail), w, old(chat.messages), chat.messages, old(kb.initialized), kb.initialized)
    {
      stored := Answer(tabName, p, history, userEmail, w, chat, kb);
      Append(MessageKey(tabName), Turn(Assistant, stored));
    }

    /** `st.session_state.messages[key].append(turn)` */
    method Append(key: string, turn: Turn)
      requires key in messages
      modifies this
      ensures messages == old(messages)[key := old(messages)[key] + [turn]]
      ensures userEmail == old(userEmail)
    {
      messages := messages[key := messages[key] + [turn]];
    }
  }
}
