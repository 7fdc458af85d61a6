/**
 * The knowledge handler: the lazily built query engine, the strict relevance
 * check (which, unlike the shared gate, does not fail open), and the rewrite of
 * dollar amounts into rupees.
 */
module Knowledge {
  import opened Oracle
  import opened Calls
  import opened Text
  import opened Guardrail

  const KnowledgeErrorPrefix: string := "Error processing knowledge query: "

  /** The currency token the rewrite writes: U+20B9 INDIAN RUPEE SIGN. */
  const Rupee: string := "\U{20B9}"

  /**
   * The token as it stands in the handler's source text: the three UTF-8 bytes
   * of U+20B9 each read back as a Windows-1252 character.
   */
  const MisencodedRupee: string := "\U{E2}\U{201A}\U{B9}"

  // ----- the `\$(\d+)` rewrite -----

  predicate IsDigit(c: char) {
    '0' <= c <= '9'
  }

  predicate AllDigits(s: string) {
    forall i :: 0 <= i < |s| ==> IsDigit(s[i])
  }

  /** The length of the run of digits `s` starts with. */
  function DigitRun(s: string): (n: nat)
    ensures n <= |s| && AllDigits(s[..n]) && (n == |s| || !IsDigit(s[n]))
  {
    if s != [] && IsDigit(s[0]) then 1 + DigitRun(s[1..]) else 0
  }

  /** Some `$` is directly followed by a digit. */
  predicate HasDollarAmount(s: string)
    decreases |s|
  {
    |s| >= 2 && ((s[0] == '$' && IsDigit(s[1])) || HasDollarAmount(s[1..]))
  }

  /**
   * `re.sub(r'\$(\d+)', token + r'\1', s)`: scanning left to right, a `$` followed
   * by a (greedy) run of digits becomes the token followed by the same digits.
   */
  function RewriteDollarAmounts(s: string, token: string): string
    decreases |s|
  {
    if s == [] then []
    else if s[0] == '$' && |s| >= 2 && IsDigit(s[1]) then
      var n := DigitRun(s[1..]);
      token + s[1..1 + n] + RewriteDollarAmounts(s[1 + n..], token)
    else [s[0]] + RewriteDollarAmounts(s[1..], token)
  }

  /** The reference reading of the rewrite: each `$` right before a digit is swapped for the token. */
  function SwapDollarSigns(s: string, token: string): string
    decreases |s|
  {
    if s == [] then []
    else if s[0] == '$' && |s| >= 2 && IsDigit(s[1]) then token + SwapDollarSigns(s[1..], token)
    else [s[0]] + SwapDollarSigns(s[1..], token)
  }

  /** Digits pass through the character-wise reading unchanged. */
  lemma {:induction false} SwapKeepsDigits(d: string, rest: string, token: string)
    requires AllDigits(d)
    ensures SwapDollarSigns(d + rest, token) == d + SwapDollarSigns(rest, token)
    decreases |d|
  {
    if d == [] {
      assert d + rest == rest;
    } else {
      assert (d + rest)[0] == d[0];
      assert (d + rest)[1..] == d[1..] + rest;
      assert IsDigit(d[0]);
      assert SwapDollarSigns(d + rest, token) == [d[0]] + SwapDollarSigns(d[1..] + rest, token);
      SwapKeepsDigits(d[1..], rest, token);
      assert d == [d[0]] + d[1..];
      assert [d[0]] + (d[1..] + SwapDollarSigns(rest, token)) == d + SwapDollarSigns(rest, token);
    }
  }

  /** Consuming the whole digit run at once is the same as swapping the `$` alone. */
  lemma {:induction false} RewriteIsSwap(s: string, token: string)
    ensures RewriteDollarAmounts(s, token) == SwapDollarSigns(s, token)
    decreases |s|
  {
    if s != [] {
      if s[0] == '$' && |s| >= 2 && IsDigit(s[1]) {
        var n := DigitRun(s[1..]);
        assert s[1..] == s[1..1 + n] + s[1 + n..];
        SwapKeepsDigits(s[1..1 + n], s[1 + n..], token);
        RewriteIsSwap(s[1 + n..], token);
      } else {
        RewriteIsSwap(s[1..], token);
      }
    }
  }

  /** A text without a `$` before a digit comes back unchanged. */
  lemma {:induction false} RewriteUnchanged(s: string, token: string)
    requires !HasDollarAmount(s)
    ensures RewriteDollarAmounts(s, token) == s
    decreases |s|
  {
    if s != [] {
      if |s| >= 2 {
        RewriteUnchanged(s[1..], token);
      }
      assert [s[0]] + s[1..] == s;
    }
  }

  /** A token that cannot itself start or complete a dollar amount. */
  predicate InertToken(token: string) {
    token != [] && !IsDigit(token[0]) && forall i :: 0 <= i < |token| ==> token[i] != '$'
  }

  /** `!HasDollarAmount` for a token followed by any text is decided by that text. */
  lemma {:induction false} InertPrefix(token: string, rest: string)
    requires forall i :: 0 <= i < |token| ==> token[i] != '$'
    requires !HasDollarAmount(rest)
    ensures !HasDollarAmount(token + rest)
    decreases |token|
  {
    if token == [] {
      assert token + rest == rest;
    } else {
      assert (token + rest)[0] == token[0];
      assert (token + rest)[1..] == token[1..] + rest;
      assert forall i :: 0 <= i < |token[1..]| ==> token[1..][i] == token[i + 1];
      InertPrefix(token[1..], rest);
      assert !HasDollarAmount((token + rest)[1..]);
      assert (token + rest)[0] != '$';
    }
  }

  /** After the swap no `$` stands before a digit, and the text starts as before or with the token. */
  lemma {:induction false} SwapClearsAmounts(s: string, token: string)
    requires InertToken(token)
    ensures !HasDollarAmount(SwapDollarSigns(s, token))
    ensures s != [] ==> SwapDollarSigns(s, token) != []
    ensures s != [] ==> SwapDollarSigns(s, token)[0] in {s[0], token[0]}
    decreases |s|
  {
    if s != [] {
      var tail := SwapDollarSigns(s[1..], token);
      SwapClearsAmounts(s[1..], token);
      if s[0] == '$' && |s| >= 2 && IsDigit(s[1]) {
        InertPrefix(token, tail);
      } else {
        var out := [s[0]] + tail;
        assert out[1..] == tail;
      }
    }
  }

  /** Rewriting twice is rewriting once. */
  lemma RewriteIdempotent(s: string, token: string)
    requires InertToken(token)
    ensures RewriteDollarAmounts(RewriteDollarAmounts(s, token), token) == RewriteDollarAmounts(s, token)
  {
    RewriteIsSwap(s, token);
    SwapClearsAmounts(s, token);
    RewriteUnchanged(RewriteDollarAmounts(s, token), token);
  }

  /** The rupee rewrite of the query engine's answer. */
  function RupeeText(s: string): (r: string)
    ensures r == SwapDollarSigns(s, Rupee)
    ensures !HasDollarAmount(r)
  {
    RewriteIsSwap(s, Rupee);
    SwapClearsAmounts(s, Rupee);
    RewriteDollarAmounts(s, Rupee)
  }

  /** An amount in dollars comes out in rupees. */
  lemma RupeeExample()
    ensures RupeeText("$50") == "\U{20B9}50"
  {
    var s := "$50";
    assert s[1..] == "50";
    assert DigitRun("50") == 2 by {
      assert "50"[1..] == "0";
      assert "0"[1..] == [];
    }
    assert s[1..3] == "50" && s[3..] == [];
  }

  /** With the token as written, the same answer comes out with three stray characters instead. */
  lemma MisencodedExample()
    ensures RewriteDollarAmounts("$50", MisencodedRupee) == "\U{E2}\U{201A}\U{B9}50"
    ensures RewriteDollarAmounts("$50", MisencodedRupee) != RupeeText("$50")
  {
    RupeeExample();
    var s := "$50";
    assert s[1..] == "50";
    assert DigitRun("50") == 2 by {
      assert "50"[1..] == "0";
      assert "0"[1..] == [];
    }
    assert s[1..3] == "50" && s[3..] == [];
    assert |RupeeText(s)| == 3;
  }

  // ----- the lazily built engine -----

  /** The query engine over the document collection, answering from its three best matches. */
  datatype QueryEngine = QueryEngine(collection: string, similarityTopK: nat)

  const Engine: QueryEngine := QueryEngine("telecom_docs", 3)

  /**
   * What the outside services do during one knowledge query: whether building the
   * index raises, what the relevance model answers, and what the engine answers.
   */
  datatype KnowledgeWorld = KnowledgeWorld(buildFault: Option<string>, verdict: Fallible<string>, answer: Fallible<string>)

  /**
   * `process_knowledge_query` when the engine was (`ready`) or was not yet built,
   * with `token` as the replacement for the dollar sign: `MisencodedRupee` is the
   * handler as written, `Rupee` the handler as intended. It never raises: every
   * exception becomes an error reply.
   */
  function KnowledgeRun(query: string, ready: bool, w: KnowledgeWorld, token: string): (h: Handled)
    ensures h.reply.Ok?
    // the engine is built before the verdict is asked for, and only if it was not built yet
    ensures !ready ==> |h.trace| >= 1 && h.trace[0] == KnowledgeInit
    ensures ready ==> KnowledgeInit !in h.trace
    // a failed build ends the query
    ensures !ready && w.buildFault.Some? ==>
      h == Handled(Ok(KnowledgeErrorPrefix + w.buildFault.value), [KnowledgeInit])
    // a rejected query never reaches the engine
    ensures EngineQuery(query) in h.trace <==>
      (ready || w.buildFault.None?) && w.verdict.Ok? && !Rejects(w.verdict.value)
    ensures (ready || w.buildFault.None?) && w.verdict.Ok? && Rejects(w.verdict.value) ==> h.reply.value == Apology
    ensures (ready || w.buildFault.None?) && w.verdict.Raised? ==>
      h.reply.value == KnowledgeErrorPrefix + w.verdict.message
    ensures EngineQuery(query) in h.trace ==>
      h.reply.value == (if w.answer.Ok? then RewriteDollarAmounts(w.answer.value, token) else KnowledgeErrorPrefix + w.answer.message)
  {
    var init := if ready then [] else [KnowledgeInit];
    if !ready && w.buildFault.Some? then Handled(Ok(KnowledgeErrorPrefix + w.buildFault.value), init)
    else
      match w.verdict
      case Raised(e) => Handled(Ok(KnowledgeErrorPrefix + e), init + [RelevanceCheck])
      case Ok(v) =>
        if Rejects(v) then Handled(Ok(Apology), init + [RelevanceCheck])
        else
          match w.answer
          case Raised(e) => Handled(Ok(KnowledgeErrorPrefix + e), init + [RelevanceCheck, EngineQuery(query)])
          case Ok(text) => Handled(Ok(RewriteDollarAmounts(text, token)), init + [RelevanceCheck, EngineQuery(query)])
  }

  /**
   * The handler as written answers "$50" with three stray characters in front of
   * the digits; the handler as intended answers with the rupee sign.
   */
  lemma MisencodedHandlerExample()
    ensures KnowledgeRun("What does the 5G plan cost?", true, KnowledgeWorld(None, Ok("YES"), Ok("$50")), MisencodedRupee).reply
      == Ok("\U{E2}\U{201A}\U{B9}50")
    ensures KnowledgeRun("What does the 5G plan cost?", true, KnowledgeWorld(None, Ok("YES"), Ok("$50")), Rupee).reply
      == Ok("\U{20B9}50")
  {
    assert !Rejects("YES") by {
      LeadingSpacesStops("YES", 0);
      TrailingSpacesStops("YES", 2);
      assert Strip("YES") == "YES";
      assert Upper("YES") == "YES";
      assert !Contains("YES", "NO") by {
        assert "YES"[1..] == "ES" && "ES"[1..] == "S";
      }
    }
    MisencodedExample();
    RupeeExample();
  }

  /** The module-level `_query_engine` and `_initialized`. */
  class KnowledgeBase {
    var initialized: bool
    var queryEngine: Option<QueryEngine>

    /** Once the flag is set the engine is there. */
    predicate Valid()
      reads this
    {
      initialized ==> queryEngine == Some(Engine)
    }

    constructor ()
      ensures Valid() && !initialized && queryEngine == None
    {
      initialized := false;
      queryEngine := None;
    }

    /** `_initialize_knowledge_base`: builds the engine once; later calls return it with no work. */
    method InitializeKnowledgeBase(buildFault: Option<string>) returns (r: Fallible<QueryEngine>)
      requires Valid()
      modifies this
      ensures Valid()
      ensures old(initialized) ==> r == Ok(Engine) && unchanged(this)
      ensures !old(initialized) && buildFault.None? ==> r == Ok(Engine) && initialized && queryEngine == Some(Engine)
      ensures !old(initialized) && buildFault.Some? ==> r == Raised(buildFault.value) && unchanged(this)
    {
      if initialized {
        return Ok(queryEngine.value);
      }
      if buildFault.Some? {
        return Raised(buildFault.value);
      }
      queryEngine := Some(Engine);
      initialized := true;
      r := Ok(Engine);
    }

    /** `process_knowledge_query` on the shared engine state. */
    method ProcessKnowledgeQuery(query: string, w: KnowledgeWorld, token: string) returns (h: Handled)
      requires Valid()
      modifies this
      ensures Valid()
      ensures h == KnowledgeRun(query, old(initialized), w, token)
      ensures initialized <==> old(initialized) || w.buildFault.None?
    {
      var ready := initialized;
      var built := InitializeKnowledgeBase(w.buildFault);
      if built.Raised? {
        return Handled(Ok(KnowledgeErrorPrefix + built.message), [KnowledgeInit]);
      }
      var init := if ready then [] else [KnowledgeInit];
      match w.verdict {
        case Raised(e) =>
          return Handled(Ok(KnowledgeErrorPrefix + e), init + [RelevanceCheck]);
        case Ok(v) =>
          if Rejects(v) {
            return Handled(Ok(Apology), init + [RelevanceCheck]);
          }
      }
      var engine := InitializeKnowledgeBase(w.buildFault);
      match w.answer {
        case Raised(e) =>
          h := Handled(Ok(KnowledgeErrorPrefix + e), init + [RelevanceCheck, EngineQuery(query)]);
        case Ok(text) =>
          h := Handled(Ok(RewriteDollarAmounts(text, token)), init + [RelevanceCheck, EngineQuery(query)]);
      }
    }
  }

  /**
   * Two queries in a row on the shared engine state: the first one builds the
   * engine, and the second one finds it built and does not build it again.
   */
  method BuiltOnce(kb: KnowledgeBase, q1: string, w1: KnowledgeWorld, q2: string, w2: KnowledgeWorld, token: string)
    returns (h1: Handled, h2: Handled)
    requires kb.Valid() && !kb.initialized && w1.buildFault.None?
    modifies kb
    ensures kb.Valid() && kb.initialized
    ensures h1 == KnowledgeRun(q1, false, w1, token) && KnowledgeInit in h1.trace
    ensures h2 == KnowledgeRun(q2, true, w2, token) && KnowledgeInit !in h2.trace
  {
    h1 := kb.ProcessKnowledgeQuery(q1, w1, token);
    h2 := kb.ProcessKnowledgeQuery(q2, w2, token);
  }
}
