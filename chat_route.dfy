/**
 * The request-handling rules of the chat route (app/api/chat/route.ts,
 * `POST`): the guardrail deny-list, the ticket rows it inserts, the numbered
 * context it gives the model, the mapping of earlier messages to model
 * history, and the order in which all of this happens in one turn.
 *
 * The route's I/O is replaced by parameters and a trace: what retrieval
 * returned (or that it rejected), the two UUIDs `crypto.randomUUID` would give, and the
 * upstream model stream are inputs; the retrieval call, the ticket inserts
 * and the model call are recorded as effects.
 */
module ChatRoute {
  import opened Wrappers
  import Text
  import BusinessLogic
  import ChatStream

  /** One message of the request body: `{role, content}`. */
  datatype Message = Message(role: string, content: string)

  /** One entry of the model's chat history: `{role, parts: [{text}]}`. */
  datatype Part = Part(text: string)
  datatype HistoryContent = HistoryContent(role: string, parts: seq<Part>)

  /** A retrieved document, as far as the route reads it: `metadata.title` and `content`. */
  datatype Doc = Doc(title: string, content: string)

  // ---------------------------------------------------------------- guardrail

  const DangerousKeywords: seq<string> :=
    ["disable logging", "access host", "sudo", "rm -rf", "ignore instructions", "jailbreak"]

  /**
   * The guardrail: the lower-cased query contains one of the deny-listed
   * phrases. The shortest phrase, "sudo", has four characters, so no
   * shorter query is blocked.
   */
  predicate IsDangerous(query: string)
    ensures IsDangerous(query) ==> |query| >= 4
  {
    Text.ContainsAny(Text.Lower(query), DangerousKeywords)
  }

  /**
   * The guardrail blocks a query exactly when its lower-cased text is some
   * text, then one of the six deny-listed phrases, then some more text.
   */
  lemma GuardrailMatchesListedPhrase(query: string)
    ensures IsDangerous(query) <==>
      exists j, before: string, after: string ::
        0 <= j < |DangerousKeywords| && Text.Lower(query) == before + DangerousKeywords[j] + after
  {
    Text.ContainsAnyAsSplit(Text.Lower(query), DangerousKeywords);
  }

  /** The guardrail ignores case: a query and its upper-cased form are blocked alike. */
  lemma GuardrailIgnoresCase(query: string)
    ensures IsDangerous(Text.Upper(query)) <==> IsDangerous(query)
  {
    Text.LowerOfUpper(query);
  }

  /**
   * The guardrail is over-inclusive by design: a blocked query stays blocked
   * whatever text surrounds it.
   */
  lemma GuardrailSurvivesSurroundingText(before: string, query: string, after: string)
    requires IsDangerous(query)
    ensures IsDangerous(before + query + after)
  {
    Text.LowerConcat(before, query);
    Text.LowerConcat(before + query, after);
    Text.ContainsAnyInContext(Text.Lower(before), Text.Lower(query), Text.Lower(after), DangerousKeywords);
  }

  /** Any query mentioning a deny-listed phrase, in any case and position, is blocked. */
  lemma PhraseAnywhereIsBlocked(before: string, j: nat, after: string)
    requires j < |DangerousKeywords|
    ensures IsDangerous(before + Text.Upper(DangerousKeywords[j]) + after)
    ensures IsDangerous(before + DangerousKeywords[j] + after)
  {
    var k := DangerousKeywords[j];
    assert Text.Lower(k) == k;
    assert Text.OccursAt(Text.Lower(k), k, 0);
    assert IsDangerous(k);
    GuardrailIgnoresCase(k);
    GuardrailSurvivesSurroundingText(before, k, after);
    GuardrailSurvivesSurroundingText(before, Text.Upper(k), after);
  }

  /** `How do I disable logging?` is blocked. */
  lemma DisableLoggingIsBlocked()
    ensures IsDangerous("How do I disable logging?")
  {
    var q := Text.Lower("How do I disable logging?");
    assert q[9..24] == "disable logging";
    assert Text.OccursAt(q, DangerousKeywords[0], 9);
  }

  /** `how to reset password` passes the guardrail. */
  lemma ResetPasswordIsAllowed()
    ensures !IsDangerous("how to reset password")
  {
    var r := "how to reset password";
    assert Text.Lower(r) == r;
    // each phrase has a character the query lacks: l, c, u, m, g, j
    Text.MissingFromEach(r, DangerousKeywords, [5, 1, 1, 1, 1, 0]);
  }

  // ---------------------------------------------------------------- history

  function ModelRole(role: string): string {
    if role == "user" then "user" else "model"
  }

  function ToHistory(m: Message): HistoryContent {
    HistoryContent(ModelRole(m.role), [Part(m.content)])
  }

  /**
   * `messages.slice(0, -1).map(...)`: every message but the last, in order,
   * with `user` kept and every other role sent as `model`.
   */
  function BuildHistory(messages: seq<Message>): (h: seq<HistoryContent>)
    ensures |h| == if messages == [] then 0 else |messages| - 1
    ensures forall i :: 0 <= i < |h| ==>
      && h[i].role in {"user", "model"}
      && (h[i].role == "user" <==> messages[i].role == "user")
      && h[i].parts == [Part(messages[i].content)]
  {
    if messages == [] then []
    else seq(|messages| - 1, i requires 0 <= i < |messages| - 1 => ToHistory(messages[i]))
  }

  /**
   * The history of the next turn extends this turn's: appending a message
   * moves the current last message into the history, and nothing else changes.
   */
  lemma HistoryGrowsByOneTurn(messages: seq<Message>, next: Message)
    requires messages != []
    ensures BuildHistory(messages + [next]) == BuildHistory(messages) + [ToHistory(messages[|messages| - 1])]
  {
    var h, h' := BuildHistory(messages), BuildHistory(messages + [next]);
    assert |h'| == |h| + 1;
    forall i | 0 <= i < |h'|
      ensures h'[i] == (h + [ToHistory(messages[|messages| - 1])])[i]
    {
      assert (messages + [next])[i] == messages[i];
    }
  }

  // ---------------------------------------------------------------- context

  /** `[n] title\ncontent` for the n-th document (counted from 1). */
  function RenderDoc(n: nat, d: Doc): string {
    "[" + Text.NatToString(n) + "] " + d.title + "\n" + d.content
  }

  /**
   * The retrieved documents, numbered from 1 in retrieval order, joined by a
   * blank line: empty exactly when there are no documents, and otherwise
   * opening with the first document's entry.
   */
  function BuildContext(docs: seq<Doc>): (c: string)
    ensures c == "" <==> docs == []
    ensures docs != [] ==> RenderDoc(1, docs[0]) <= c
  {
    var entries := seq(|docs|, i requires 0 <= i < |docs| => RenderDoc(i + 1, docs[i]));
    Text.JoinEnds(entries, "\n\n");
    Text.Join(seq(|docs|, i requires 0 <= i < |docs| => RenderDoc(i + 1, docs[i])), "\n\n")
  }

  /**
   * The context read one document at a time: no documents give the empty
   * string, one gives its entry numbered 1, and each further document adds
   * a blank line and its entry with the next number.
   */
  lemma ContextByDocument(docs: seq<Doc>, d: Doc)
    ensures BuildContext([]) == ""
    ensures BuildContext([d]) == RenderDoc(1, d)
    ensures docs != [] ==> BuildContext(docs + [d]) == BuildContext(docs) + "\n\n" + RenderDoc(|docs| + 1, d)
  {
    if docs != [] {
      var entries := seq(|docs|, i requires 0 <= i < |docs| => RenderDoc(i + 1, docs[i]));
      var entries' := seq(|docs| + 1, i requires 0 <= i < |docs| + 1 => RenderDoc(i + 1, (docs + [d])[i]));
      assert entries' == entries + [RenderDoc(|docs| + 1, d)];
      Text.JoinSnoc(entries, RenderDoc(|docs| + 1, d), "\n\n");
    }
  }

  /**
   * Each entry reads back: it opens with "[", the digits up to "] " read back
   * as the document's position, then come the title, a newline and the
   * content.
   */
  lemma EntryNumberReadsBack(n: nat, d: Doc)
    ensures var e := RenderDoc(n, d); var k := |Text.NatToString(n)|;
      && e[0] == '[' && e[1..k + 1] == Text.NatToString(n) && Text.DigitsValue(e[1..k + 1]) == n
      && e[k + 1..k + 3] == "] " && e[k + 3..] == d.title + "\n" + d.content
  {
    var e := RenderDoc(n, d);
    var k := |Text.NatToString(n)|;
    assert e[1..k + 1] == Text.NatToString(n);
    assert e[k + 3..] == d.title + "\n" + d.content;
    Text.DecimalRoundTrip(n);
  }

  // ---------------------------------------------------------------- tickets

  /** A row the route inserts into `tickets`; `guardrail_blocked` is never written. */
  datatype NewTicket = NewTicket(
    sessionId: string,
    userQuery: string,
    aiResponse: Option<string>,
    tier: int,
    severity: string,
    deflected: bool)

  const Refusal: string := "Request denied for security reasons."

  /**
   * The ticket inserted for every turn whose search succeeds, before the
   * guardrail runs: deflected exactly when a document was found, tier 1 when
   * deflected and tier 3 otherwise, severity "Medium", no answer yet.
   */
  function FirstTicket(sessionId: string, query: string, docs: seq<Doc>): (t: NewTicket)
    ensures t.sessionId == sessionId && t.userQuery == query
    ensures t.deflected <==> docs != []
    ensures t.tier == (if t.deflected then 1 else 3)
    ensures t.severity == "Medium" && t.aiResponse.None?
  {
    var deflected := |docs| > 0;
    NewTicket(sessionId, query, None, if deflected then 1 else 3, "Medium", deflected)
  }

  /**
   * The second ticket inserted when the guardrail blocks the query: it
   * carries the refusal as its answer, so it is never mistaken for a first
   * ticket, and is tier 1, "High", not deflected.
   */
  function BlockedTicket(sessionId: string, query: string): (t: NewTicket)
    ensures t.sessionId == sessionId && t.userQuery == query
    ensures t.aiResponse == Some(Refusal) && t.tier == 1 && t.severity == "High" && !t.deflected
    ensures forall docs :: t != FirstTicket(sessionId, query, docs)
  {
    NewTicket(sessionId, query, Some(Refusal), 1, "High", false)
  }

  /**
   * For a query the guardrail lets through and that names no critical
   * incident, the first ticket agrees with the classifier: it is deflected
   * (tier 1) exactly when the classifier answers TIER_1 without escalation,
   * and otherwise carries tier 3 where the classifier says TIER_2.
   */
  lemma FirstTicketAgreesWithClassifier(sessionId: string, query: string, docs: seq<Doc>)
    requires !BusinessLogic.HasCriticalKeyword(query)
    ensures var t := FirstTicket(sessionId, query, docs);
      var m := BusinessLogic.CalculateTicketMetadata(query, |docs| > 0, false);
      && (t.deflected <==> !m.needsEscalation)
      && (t.tier == 1 <==> m.tier == BusinessLogic.TIER_1)
      && (t.tier == 3 <==> m.tier == BusinessLogic.TIER_2)
      && t.severity == "Medium" && m.severity == BusinessLogic.MEDIUM
  {
  }

  /**
   * Where the route and the classifier part ways: the route never looks for
   * a critical phrase, so a kernel-panic report with a document found is
   * logged as a deflected tier-1 "Medium" ticket, while the classifier
   * rates the same query TIER_2, HIGH and escalated.
   */
  lemma CriticalQueryDisagreesWithClassifier()
    ensures var q := "my vm had a kernel panic";
      var t := FirstTicket("a", q, [Doc("VM crashes", "Collect the crash dump.")]);
      var m := BusinessLogic.CalculateTicketMetadata(q, true, false);
      && t.tier == 1 && t.severity == "Medium" && t.deflected
      && m.tier == BusinessLogic.TIER_2 && m.severity == BusinessLogic.HIGH && m.needsEscalation
  {
    BusinessLogic.KernelPanicScenario();
  }

  /** The blocked ticket agrees with the classifier's verdict for a blocked query. */
  lemma BlockedTicketAgreesWithClassifier(sessionId: string, query: string, docsFound: bool)
    ensures var t := BlockedTicket(sessionId, query);
      var m := BusinessLogic.CalculateTicketMetadata(query, docsFound, true);
      t.tier == 1 && m.tier == BusinessLogic.TIER_1 && t.severity == "High" && m.severity == BusinessLogic.HIGH
      && !t.deflected && t.aiResponse == Some(Refusal)
  {
  }

  // ---------------------------------------------------------------- one turn

  /** The route's observable I/O, in the order it happens. */
  datatype Effect =
    | SearchDocuments(query: string)
    | InsertTicket(ticket: NewTicket)
    | SendMessage(history: seq<HistoryContent>, context: string, query: string)

  /** The records of the refusal response. */
  const RefusalChunks: seq<ChatStream.Chunk> := [ChatStream.Delta(Refusal), ChatStream.Stop]

  function Query(messages: seq<Message>): string
    requires messages != []
  {
    messages[|messages| - 1].content
  }

  /**
   * The I/O of one turn: search; when the search rejects (`None`) nothing
   * else; otherwise insert the first ticket, then either insert the blocked
   * ticket or send the prompt to the model.
   */
  function TurnEffects(messages: seq<Message>, retrieved: Option<seq<Doc>>, firstId: string, secondId: string): (e: seq<Effect>)
    requires messages != []
    ensures |e| == if retrieved.None? then 1 else 3
    ensures e[0] == SearchDocuments(Query(messages))
  {
    var query := Query(messages);
    match retrieved
    case None => [SearchDocuments(query)]
    case Some(docs) =>
      [SearchDocuments(query), InsertTicket(FirstTicket(firstId, query, docs))]
      + if IsDangerous(query) then [InsertTicket(BlockedTicket(secondId, query))]
        else [SendMessage(BuildHistory(messages), BuildContext(docs), query)]
  }

  /**
   * The records of one turn's response: the refusal and `stop` for a blocked
   * query, the model's answer otherwise; a response without records only
   * when the model throws before its first non-empty fragment.
   */
  function TurnChunks(query: string, up: ChatStream.Upstream): (cs: seq<ChatStream.Chunk>)
    ensures IsDangerous(query) ==> cs == [ChatStream.Delta(Refusal), ChatStream.Stop]
    ensures cs == [] ==> !IsDangerous(query) && up.fails
  {
    if IsDangerous(query) then RefusalChunks else ChatStream.AnswerChunks(up)
  }

  /**
   * How one turn's response stream ends: never left open, and errored
   * exactly when the query reached the model and the model threw.
   */
  function TurnEnd(query: string, up: ChatStream.Upstream): (s: ChatStream.StreamState)
    ensures s != ChatStream.Readable
    ensures s == ChatStream.Errored <==> !IsDangerous(query) && up.fails
  {
    if !IsDangerous(query) && up.fails then ChatStream.Errored else ChatStream.Closed
  }

  /**
   * What a turn gives back: its I/O trace, and either a failure (an exception
   * escaping `POST`, which the framework answers with status 500) or the
   * records enqueued on the response stream and its final state.
   */
  datatype Reply =
    | Failed(effects: seq<Effect>)
    | Streamed(effects: seq<Effect>, body: seq<string>, end: ChatStream.StreamState)

  /**
   * The refusal stream's `start`: one delta carrying `refuse`, the stop
   * record, then close. The route writes its records in the syntax `Sse`.
   */
  method SendRefusal(controller: ChatStream.StreamController, syn: ChatStream.Syntax, refuse: string)
    requires controller.state == ChatStream.Readable
    modifies controller
    ensures controller.chunks == old(controller.chunks) + ChatStream.Records(syn, [ChatStream.Delta(refuse), ChatStream.Stop])
    ensures controller.state == ChatStream.Closed
  {
    controller.Enqueue(ChatStream.Record(syn, ChatStream.Delta(refuse)));
    controller.Enqueue(ChatStream.Record(syn, ChatStream.Stop));
    controller.Close();
    ChatStream.RecordsOfTwo(syn, ChatStream.Delta(refuse), ChatStream.Stop);
  }

  /**
   * `POST`. An empty `messages` makes `messages[messages.length - 1].content`
   * throw before any I/O. A rejected search (`retrieved == None`: the
   * embedding call in `searchDocuments` throws and nothing catches it) fails
   * the request right after the search. Otherwise the turn runs in the
   * route's own order: the first ticket insert happens before the guardrail.
   */
  method Post(messages: seq<Message>, retrieved: Option<seq<Doc>>, firstId: string, secondId: string, up: ChatStream.Upstream)
    returns (r: Reply)
    ensures messages == [] ==> r == Failed([])
    ensures messages != [] ==> r.effects == TurnEffects(messages, retrieved, firstId, secondId)
    ensures r.Streamed? <==> messages != [] && retrieved.Some?
    ensures r.Streamed? ==>
      && r.body == ChatStream.Frames(TurnChunks(Query(messages), up))
      && r.end == TurnEnd(Query(messages), up)
  {
    if |messages| == 0 {
      return Failed([]);
    }
    var query := messages[|messages| - 1].content;
    var history := BuildHistory(messages);
    var effects := [SearchDocuments(query)];
    if retrieved.None? {
      return Failed(effects);
    }
    var docs := retrieved.value;
    var context := BuildContext(docs);
    var lowerQuery := Text.Lower(query);
    var deflected := |docs| > 0;
    var tier := if deflected then 1 else 3;
    effects := effects + [InsertTicket(NewTicket(firstId, query, None, tier, "Medium", deflected))];
    assert effects == [SearchDocuments(query), InsertTicket(FirstTicket(firstId, query, docs))];
    var controller := new ChatStream.StreamController();
    var blocked := Text.ContainsAny(lowerQuery, DangerousKeywords);
    if blocked {
      effects := effects + [InsertTicket(NewTicket(secondId, query, Some(Refusal), 1, "High", false))];
      SendRefusal(controller, ChatStream.Sse, Refusal);
    } else {
      effects := effects + [SendMessage(history, context, query)];
      ChatStream.Pump(controller, ChatStream.Sse, up);
    }
    r := Streamed(effects, controller.chunks, controller.state);
  }

  /** The model is asked exactly when the guardrail lets the query through. */
  predicate CallsModel(effects: seq<Effect>) {
    exists i :: 0 <= i < |effects| && effects[i].SendMessage?
  }

  function InsertCount(effects: seq<Effect>): nat {
    if effects == [] then 0
    else InsertCount(effects[..|effects| - 1]) + (if effects[|effects| - 1].InsertTicket? then 1 else 0)
  }

  lemma {:induction false} ThreeEffects(a: Effect, b: Effect, c: Effect)
    ensures InsertCount([a, b, c]) == (if a.InsertTicket? then 1 else 0) + (if b.InsertTicket? then 1 else 0) + (if c.InsertTicket? then 1 else 0)
    ensures CallsModel([a, b, c]) <==> a.SendMessage? || b.SendMessage? || c.SendMessage?
  {
    var e := [a, b, c];
    assert [a][..0] == [];
    assert InsertCount([a]) == (if a.InsertTicket? then 1 else 0);
    assert [a, b][..1] == [a];
    assert InsertCount([a, b]) == InsertCount([a]) + (if b.InsertTicket? then 1 else 0);
    assert e[..2] == [a, b];
    assert e[0] == a && e[1] == b && e[2] == c;
  }

  /**
   * A blocked query still triggers retrieval and the first ticket insert
   * (both come before the guardrail test), then a second insert, and never
   * reaches the model.
   */
  lemma BlockedTurn(messages: seq<Message>, docs: seq<Doc>, firstId: string, secondId: string)
    requires messages != [] && IsDangerous(Query(messages))
    ensures var e := TurnEffects(messages, Some(docs), firstId, secondId);
      && e == [SearchDocuments(Query(messages)),
               InsertTicket(FirstTicket(firstId, Query(messages), docs)),
               InsertTicket(BlockedTicket(secondId, Query(messages)))]
      && InsertCount(e) == 2
      && !CallsModel(e)
  {
    var q := Query(messages);
    ThreeEffects(SearchDocuments(q), InsertTicket(FirstTicket(firstId, q, docs)), InsertTicket(BlockedTicket(secondId, q)));
  }

  /**
   * The response to a blocked query is exactly the refusal delta followed by
   * `stop`, whatever the model would have said, and a client reading the body
   * gets back those two records; the stream ends closed.
   */
  lemma BlockedReply(query: string, up: ChatStream.Upstream)
    requires IsDangerous(query)
    ensures TurnChunks(query, up) == [ChatStream.Delta(Refusal), ChatStream.Stop]
    ensures ChatStream.ReadFrames(ChatStream.Concat(ChatStream.Frames(TurnChunks(query, up))))
         == Some([ChatStream.Delta(Refusal), ChatStream.Stop])
    ensures TurnEnd(query, up) == ChatStream.Closed
  {
    ChatStream.FramesRoundTrip(RefusalChunks);
  }

  /**
   * A query the guardrail lets through is retrieved, logged once and sent to
   * the model with the mapped history and the numbered context.
   */
  lemma AllowedTurn(messages: seq<Message>, docs: seq<Doc>, firstId: string, secondId: string)
    requires messages != [] && !IsDangerous(Query(messages))
    ensures var e := TurnEffects(messages, Some(docs), firstId, secondId);
      && e == [SearchDocuments(Query(messages)),
               InsertTicket(FirstTicket(firstId, Query(messages), docs)),
               SendMessage(BuildHistory(messages), BuildContext(docs), Query(messages))]
      && InsertCount(e) == 1
      && CallsModel(e)
  {
    var q := Query(messages);
    ThreeEffects(SearchDocuments(q), InsertTicket(FirstTicket(firstId, q, docs)),
      SendMessage(BuildHistory(messages), BuildContext(docs), q));
  }

  /**
   * Retrieval runs before the guardrail and its rejection is not caught, so
   * a rejected search ends the turn after the search alone, dangerous query
   * or not: no ticket is logged and the model is not called (`Post` then
   * answers with a failure, not the refusal). The same dangerous query with
   * a search that succeeds, even with no documents, is logged twice.
   */
  lemma RejectedSearchSkipsGuardrail(messages: seq<Message>, docs: seq<Doc>, firstId: string, secondId: string)
    requires messages != []
    ensures var e := TurnEffects(messages, None, firstId, secondId);
      e == [SearchDocuments(Query(messages))] && InsertCount(e) == 0 && !CallsModel(e)
    ensures IsDangerous(Query(messages)) ==> InsertCount(TurnEffects(messages, Some(docs), firstId, secondId)) == 2
  {
    var e := TurnEffects(messages, None, firstId, secondId);
    assert e[..0] == [];
    if IsDangerous(Query(messages)) {
      BlockedTurn(messages, docs, firstId, secondId);
    }
  }

  /**
   * The response to an allowed query carries the model's non-empty
   * fragments, read back unchanged by a client, and ends in `stop` exactly
   * when the model call does not throw; a throw errors the stream.
   */
  lemma AllowedReply(query: string, up: ChatStream.Upstream)
    requires !IsDangerous(query)
    ensures TurnChunks(query, up) == ChatStream.AnswerChunks(up)
    ensures ChatStream.ReadFrames(ChatStream.Concat(ChatStream.Frames(TurnChunks(query, up))))
         == Some(ChatStream.AnswerChunks(up))
    ensures TurnEnd(query, up) == (if up.fails then ChatStream.Errored else ChatStream.Closed)
  {
    ChatStream.FramesRoundTrip(ChatStream.AnswerChunks(up));
  }

  /**
   * The route's tickets do not keep the invariant "a blocked request is
   * logged with deflected = false": a blocked query for which retrieval
   * found a document also gets a first ticket that is deflected, tier 1,
   * severity Medium.
   */
  lemma BlockedQueryCanLogDeflectedTicket()
    ensures var messages := [Message("user", "How do I disable logging?")];
      var docs := [Doc("Logging", "Audit logs are always on.")];
      && IsDangerous(Query(messages))
      && TurnEffects(messages, Some(docs), "a", "b")[1] == InsertTicket(NewTicket("a", Query(messages), None, 1, "Medium", true))
  {
    DisableLoggingIsBlocked();
  }
}
