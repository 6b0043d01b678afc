/**
 * The tier/severity classifier of lib/business-logic.ts: a first-match-wins
 * decision over the query text, whether retrieval found documents, and
 * whether the guardrail blocked the query.
 */
module BusinessLogic {
  import Text

  datatype Tier = TIER_1 | TIER_2

  datatype Severity = LOW | MEDIUM | HIGH

  datatype TicketMetadata = TicketMetadata(tier: Tier, severity: Severity, needsEscalation: bool)

  /** Phrases that mark a critical-infrastructure incident, matched in the lower-cased query. */
  const CriticalKeywords: seq<string> :=
    ["kernel panic", "system crash", "data loss", "production down", "security breach"]

  predicate HasCriticalKeyword(query: string) {
    Text.ContainsAny(Text.Lower(query), CriticalKeywords)
  }

  /**
   * `calculateTicketMetadata`. The contract characterises each field on its
   * own, independently of the order of the tests: severity is HIGH exactly
   * for blocked or critical queries, the tier is TIER_1 exactly for blocked
   * queries and for routine queries answered from the knowledge base, and
   * the only case that needs no escalation is the routine answered query.
   */
  function CalculateTicketMetadata(query: string, docsFound: bool, isBlocked: bool): (m: TicketMetadata)
    ensures m.severity != LOW
    ensures m.severity == HIGH <==> isBlocked || HasCriticalKeyword(query)
    ensures m.tier == TIER_1 <==> isBlocked || (!HasCriticalKeyword(query) && docsFound)
    ensures !m.needsEscalation <==> !isBlocked && !HasCriticalKeyword(query) && docsFound
  {
    if isBlocked then
      TicketMetadata(TIER_1, HIGH, true)
    else if HasCriticalKeyword(query) then
      TicketMetadata(TIER_2, HIGH, true)
    else if docsFound then
      TicketMetadata(TIER_1, MEDIUM, false)
    else
      TicketMetadata(TIER_2, MEDIUM, true)
  }

  /** A blocked query is TIER_1 / HIGH / escalated whatever the query and the retrieval outcome. */
  lemma BlockedDominates(query: string, docsFound: bool)
    ensures CalculateTicketMetadata(query, docsFound, true) == TicketMetadata(TIER_1, HIGH, true)
  {
  }

  /** A critical keyword in an unblocked query gives TIER_2 / HIGH / escalated, documents or not. */
  lemma CriticalDominatesDocs(query: string, docsFound: bool)
    requires HasCriticalKeyword(query)
    ensures CalculateTicketMetadata(query, docsFound, false) == TicketMetadata(TIER_2, HIGH, true)
  {
  }

  /** A routine query answered from the knowledge base is deflected at TIER_1. */
  lemma RoutineWithDocsDeflected(query: string)
    requires !HasCriticalKeyword(query)
    ensures CalculateTicketMetadata(query, true, false) == TicketMetadata(TIER_1, MEDIUM, false)
  {
  }

  /** A routine query with no documents goes to TIER_2 for a human. */
  lemma RoutineWithoutDocsEscalated(query: string)
    requires !HasCriticalKeyword(query)
    ensures CalculateTicketMetadata(query, false, false) == TicketMetadata(TIER_2, MEDIUM, true)
  {
  }

  /** Keyword matching ignores case: a query and its upper-cased form classify alike. */
  lemma ClassificationIgnoresCase(query: string, docsFound: bool, isBlocked: bool)
    ensures CalculateTicketMetadata(Text.Upper(query), docsFound, isBlocked)
         == CalculateTicketMetadata(query, docsFound, isBlocked)
  {
    Text.LowerOfUpper(query);
  }

  /** `my vm had a kernel panic` with documents found: the critical keyword wins. */
  lemma KernelPanicScenario()
    ensures CalculateTicketMetadata("my vm had a kernel panic", true, false).tier == TIER_2
    ensures CalculateTicketMetadata("my vm had a kernel panic", true, false).severity == HIGH
  {
    var q := Text.Lower("my vm had a kernel panic");
    assert q[12..24] == "kernel panic";
    assert Text.OccursAt(q, CriticalKeywords[0], 12);
  }

  /** The routine test query holds no critical keyword. */
  lemma ResetPasswordIsNotCritical()
    ensures !HasCriticalKeyword("how to reset password")
  {
    var r := "how to reset password";
    assert Text.Lower(r) == r;
    // each keyword has a character the query lacks: k, y, l, u, c
    Text.MissingFromEach(r, CriticalKeywords, [0, 1, 5, 4, 2]);
  }

  /** The unknown-issue test query holds no critical keyword. */
  lemma UnknownErrorIsNotCritical()
    ensures !HasCriticalKeyword("unknown weird error")
  {
    var u := "unknown weird error";
    assert Text.Lower(u) == u;
    // each keyword has a character the query lacks: p, s, t, p, s
    Text.MissingFromEach(u, CriticalKeywords, [7, 0, 2, 0, 0]);
  }

  /** The four scenarios of the business-logic test script. */
  lemma TestScriptScenarios()
    ensures var m := CalculateTicketMetadata("disable logging", false, true);
      m.severity == HIGH && m.needsEscalation
    ensures var m := CalculateTicketMetadata("my vm had a kernel panic", true, false);
      m.severity == HIGH && m.tier == TIER_2
    ensures var m := CalculateTicketMetadata("how to reset password", true, false);
      m.tier == TIER_1 && !m.needsEscalation
    ensures var m := CalculateTicketMetadata("unknown weird error", false, false);
      m.tier == TIER_2 && m.needsEscalation
  {
    KernelPanicScenario();
    ResetPasswordIsNotCritical();
    UnknownErrorIsNotCritical();
  }
}
