/**
 * The billing handler: relevance gate, billing row lookup, the row-to-dictionary
 * mapping, and the keyword rule that picks a short summary or a detailed analysis
 * for the billing crew.
 */
module Billing {
  import opened Oracle
  import opened Store
  import opened Calls
  import opened Text
  import opened Guardrail

  const NoBillingRecords: string :=
    "Could not find billing records "
    + "for this customer."
  const BillingCollection: string := "billing_docs"

  /** Words that ask for an explanation. */
  const ComplexKeywords: seq<string> :=
    ["why", "explain", "reason", "break down", "analyze", "details", "high", "expensive", "tax", "fee", "charge"]

  /** Phrases that ask only for the amount. */
  const SimpleKeywords: seq<string> :=
    ["what's my bill", "whats my bill", "how much", "bill amount", "what do i owe", "current bill", "total bill"]

  // ----- the billing dictionary -----

  /** The row a dictionary was built from: its fields in column order. */
  function Columns(d: BillingDict): BillingRow {
    [d.name, d.email, d.servicePlanId, d.dataUsedGb, d.voiceMinutesUsed, d.smsCountUsed,
     d.additionalCharges, d.totalBillAmount, d.monthlyCost, d.dataLimitGb, d.voiceMinutes, d.smsCount]
  }

  /** `billing_dict`: each named field takes the column at its position, so the row can be read back. */
  function BillingDictOf(row: BillingRow): (d: BillingDict)
    ensures Columns(d) == row
  {
    BillingDict(row[0], row[1], row[2], row[3], row[4], row[5], row[6], row[7], row[8], row[9], row[10], row[11])
  }

  /** No field is lost or moved: a dictionary rebuilt from its own columns is the same dictionary. */
  lemma BillingDictOfColumns(d: BillingDict)
    ensures BillingDictOf(Columns(d)) == d
  {
  }

  /** Two different rows never give the same dictionary. */
  lemma BillingDictOfInjective(r1: BillingRow, r2: BillingRow)
    requires BillingDictOf(r1) == BillingDictOf(r2)
    ensures r1 == r2
  {
    assert Columns(BillingDictOf(r1)) == r1;
  }

  // ----- query classification -----

  /** `is_complex`: some complex keyword occurs in the lower-cased query. */
  predicate IsComplex(query: string) {
    AnyKeyword(ComplexKeywords, Lower(query))
  }

  /** `is_simple_query`: some simple keyword occurs and no complex one does. */
  predicate IsSimple(query: string) {
    AnyKeyword(SimpleKeywords, Lower(query)) && !IsComplex(query)
  }

  /** The task template the crew is given. */
  function TemplateFor(query: string): (t: Template)
    ensures t == SimpleSummary ==> !IsComplex(query)
    ensures t == DetailedAnalysis <==> !IsSimple(query)
  {
    if IsSimple(query) then SimpleSummary else DetailedAnalysis
  }

  /**
   * The keyword test ignores case: a query holding any spelling of a complex
   * keyword ("WHY", "Tax") is complex and gets the detailed analysis, whatever
   * simple phrase it also holds.
   */
  lemma ComplexKeywordAnyCase(query: string, word: string, i: nat)
    requires i < |ComplexKeywords| && Lower(word) == ComplexKeywords[i]
    requires Contains(query, word)
    ensures IsComplex(query) && !IsSimple(query)
    ensures TemplateFor(query) == DetailedAnalysis
  {
    ContainsLower(query, word);
  }

  /** A query holding a simple phrase in any case and no complex keyword gets the short summary. */
  lemma SimplePhraseAnyCase(query: string, phrase: string, i: nat)
    requires i < |SimpleKeywords| && Lower(phrase) == SimpleKeywords[i]
    requires Contains(query, phrase) && !IsComplex(query)
    ensures TemplateFor(query) == SimpleSummary
  {
    ContainsLower(query, phrase);
  }

  /** A query with neither kind of keyword takes the detailed analysis. */
  lemma NoKeywordIsDetailed(query: string)
    requires forall i :: 0 <= i < |SimpleKeywords| ==> !Contains(Lower(query), SimpleKeywords[i])
    ensures TemplateFor(query) == DetailedAnalysis
  {
  }

  // ----- the handler -----

  /**
   * `process_billing_query`, given the relevance verdict, the database and what
   * the crew returns or raises. The crew's exception is not caught here.
   */
  function ProcessBillingQuery(query: string, customerId: string, verdict: Fallible<string>,
                               tables: Tables, crew: Fallible<string>): (h: Handled)
    ensures |h.trace| >= 1 && h.trace[0] == RelevanceCheck
    // a rejection is returned before the database is read
    ensures !CheckTelecomRelevance(verdict).0 ==> h == Handled(Ok(Apology), [RelevanceCheck])
    // a customer without billing rows gets the fixed message, and no crew runs
    ensures CheckTelecomRelevance(verdict).0 && customerId !in tables.billingRows ==>
      h == Handled(Ok(NoBillingRecords), [RelevanceCheck, BillingLookup(customerId)])
    // otherwise the crew answers, working on the customer's row with the template the query calls for
    ensures CheckTelecomRelevance(verdict).0 && customerId in tables.billingRows ==>
      && h.reply == crew
      && h.trace == [RelevanceCheck, BillingLookup(customerId), Retrieval(BillingCollection),
                     CrewKickoff(TemplateFor(query), BillingDictOf(tables.billingRows[customerId]))]
  {
    var (relevant, rejection) := CheckTelecomRelevance(verdict);
    if !relevant then Handled(Ok(rejection), [RelevanceCheck])
    else
      match BillingDetails(tables, customerId)
      case None => Handled(Ok(NoBillingRecords), [RelevanceCheck, BillingLookup(customerId)])
      case Some(row) =>
        var billing := BillingDictOf(row);
        Handled(crew, [RelevanceCheck, BillingLookup(customerId), Retrieval(BillingCollection),
                       CrewKickoff(TemplateFor(query), billing)])
  }

  /** The crew is handed exactly the customer's billing row. */
  lemma CrewSeesTheRow(query: string, customerId: string, verdict: Fallible<string>,
                       tables: Tables, crew: Fallible<string>, template: Template, data: BillingDict)
    requires CrewKickoff(template, data) in ProcessBillingQuery(query, customerId, verdict, tables, crew).trace
    ensures customerId in tables.billingRows && Columns(data) == tables.billingRows[customerId]
    ensures CheckTelecomRelevance(verdict).0 && template == TemplateFor(query)
  {
  }
}
