# custom-rag-gpt support chat: a verified model in Dafny

This project models the rules at the centre of the custom-rag-gpt support assistant:

- **The tier/severity classifier** `calculateTicketMetadata` (module `BusinessLogic`). It is a first-match-wins decision over three inputs: the query, whether retrieval found documents, and whether the guardrail blocked the query.
- **One turn of the chat route** `POST` (modules `ChatRoute` and `ChatStream`):
  - the guardrail deny-list;
  - the two ticket rows the route can insert;
  - the numbered context given to the model;
  - the mapping of earlier messages to model history;
  - the `data: <json>\n\n` records streamed back.

  The turn follows the route's own order: retrieval and the first ticket insert happen before the guardrail test. So a blocked query is still retrieved and logged twice, and a search that rejects fails the request before the guardrail is reached. The stream's upstream is the model's fragments, followed by either the end or a throw. The loop that forwards them (`ChatStream.Pump`) is proved against the record sequence `AnswerChunks`. A reader for the records proves that a client gets back exactly the records that were sent.
- **The daily trend report** `GET /api/metrics/trends` (module `Trends`). Tickets are folded into a per-day dictionary whose counters are bumped in place (`Aggregate`, `CountTicket`). The entries are then sorted by date (`SortByDate`). The report is characterised by `IsTrendReport`. It is proved complete, exact per day, independent of insertion order, and to add up to the number of tickets.
- **The metrics summary** `GET /api/metrics` (module `Metrics`). It covers the `tierCounts` reduce over a mutable accumulator, the deflected count, the total and the zero-ticket case of `deflectionRate`.

Supporting modules:

- `Text`: ASCII case folding, `includes`, `some`, decimal rendering of numbers, `join`, and code-point string order.
- `Json`: `JSON.stringify` string escaping and its inverse reader.
- `Tickets`: the two tier representations and how an object key is made from them.
- `Tally`: counting rows by key, and the partition lemma.
- `Wrappers`: `Option`.

I/O is replaced by parameters and by a trace of effects:

- the retrieval outcome: the documents found, or a rejected search;
- the two `crypto.randomUUID` values;
- the upstream model stream;
- the database query outcome;
- the inserts, the retrieval call and the model call, recorded as `ChatRoute.Effect` values.

### Where the code departs from the behaviour intended for it

The route's comment at `app/api/chat/route.ts:40` introduces the guardrail as what blocks dangerous requests. The intended behaviour of the assistant is that the guardrail is checked before any retrieval or model call, that a blocked request is logged once, not deflected and marked as blocked, and that a failing embedding service is recovered from rather than failing the request. The model follows the code in each case.

- **Guardrail order.** In `app/api/chat/route.ts` retrieval (line 29) and a first ticket insert (lines 46-53) come before the guardrail test (line 62). `ChatRoute.BlockedTurn` proves that a blocked turn searches, inserts twice and never calls the model.
- **Blocked tickets.** The route never writes `guardrail_blocked`. Its first ticket for a blocked query is deflected whenever retrieval found a document. `ChatRoute.BlockedQueryCanLogDeflectedTicket` gives such a query.
- **Embedding failure.** `searchDocuments` awaits the embedding call (`lib/rag.ts:26`) without catching its rejection, and the route does not catch it either (line 29). A rejected search therefore fails the whole request right after the search: no ticket is written, and even a deny-listed query gets a failure instead of the refusal. Only a failed `match_documents` query is recovered, as an empty result (`lib/rag.ts:34-37`). `ChatRoute.Post` and `ChatRoute.RejectedSearchSkipsGuardrail` state this.
- **Classifier.** The route does not call the classifier. It derives tier 1/3 and "Medium"/"High" itself. `ChatRoute.FirstTicketAgreesWithClassifier` and `ChatRoute.BlockedTicketAgreesWithClassifier` state how the two agree. They part ways on critical incidents: the route never looks for the classifier's critical phrases, so a query naming a kernel panic with a document found is logged tier 1, "Medium", deflected, where the classifier answers TIER_2 / HIGH / escalate. `ChatRoute.CriticalQueryDisagreesWithClassifier` gives that query.

## Model

| member | source | states |
|---|---|---|
| BusinessLogic.CalculateTicketMetadata | lib/business-logic.ts:7-55 | each field is characterised on its own: severity is never LOW, and is HIGH iff blocked or a critical phrase occurs; the tier is TIER_1 iff blocked, or there is no critical phrase and docs were found; no escalation iff not blocked, no critical phrase and docs found |
| BusinessLogic.BlockedDominates | lib/business-logic.ts:15-21 | a blocked query is TIER_1 / HIGH / escalated, whatever the query and the retrieval outcome |
| BusinessLogic.CriticalDominatesDocs | lib/business-logic.ts:24-38 | an unblocked query with one of the five critical phrases is TIER_2 / HIGH / escalated, with or without docs |
| BusinessLogic.RoutineWithDocsDeflected | lib/business-logic.ts:41-47 | a routine query with docs found is TIER_1 / MEDIUM / not escalated |
| BusinessLogic.RoutineWithoutDocsEscalated | lib/business-logic.ts:50-54 | a routine query without docs is TIER_2 / MEDIUM / escalated |
| BusinessLogic.ClassificationIgnoresCase | lib/business-logic.ts:12-32 | a query and its upper-cased form get the same metadata |
| BusinessLogic.KernelPanicScenario | scripts/test-logic.ts:17-23 | "my vm had a kernel panic" with docs found is TIER_2 / HIGH |
| BusinessLogic.ResetPasswordIsNotCritical | scripts/test-logic.ts:24-31 | "how to reset password" holds none of the critical phrases |
| BusinessLogic.UnknownErrorIsNotCritical | scripts/test-logic.ts:32-39 | "unknown weird error" holds none of the critical phrases |
| BusinessLogic.TestScriptScenarios | scripts/test-logic.ts:7-40 | the four scenarios of the test script give the expected tier, severity and escalation |
| ChatRoute.IsDangerous | app/api/chat/route.ts:41-62 | only a query of at least four characters, the length of the shortest phrase "sudo", can be blocked |
| ChatRoute.GuardrailMatchesListedPhrase | app/api/chat/route.ts:41-62 | a query is blocked iff its lower-cased text is some text, then one of the six deny-listed phrases, then more text |
| ChatRoute.GuardrailIgnoresCase | app/api/chat/route.ts:41-62 | a query and its upper-cased form are blocked alike |
| ChatRoute.GuardrailSurvivesSurroundingText | app/api/chat/route.ts:62 | a blocked query stays blocked whatever text surrounds it |
| ChatRoute.PhraseAnywhereIsBlocked | app/api/chat/route.ts:54-62 | any deny-listed phrase, lower- or upper-case, anywhere in a query blocks it |
| ChatRoute.DisableLoggingIsBlocked | app/api/chat/route.ts:54-62 | "How do I disable logging?" is blocked |
| ChatRoute.ResetPasswordIsAllowed | app/api/chat/route.ts:54-62 | "how to reset password" passes the guardrail |
| ChatRoute.BuildHistory | app/api/chat/route.ts:22-25 | the history has one entry per message except the last, in order; the role is "user" iff the message role is "user", and "model" otherwise; each entry's parts are the message content |
| ChatRoute.HistoryGrowsByOneTurn | app/api/chat/route.ts:22-25 | appending a message moves the previous last message into the history and changes nothing else |
| ChatRoute.ContextByDocument | app/api/chat/route.ts:36-38 | no docs give ""; one doc gives its entry numbered 1; each further doc adds "\n\n" and its entry numbered by position |
| ChatRoute.EntryNumberReadsBack | app/api/chat/route.ts:37 | each entry `RenderDoc` writes starts "[", its decimal digits read back as the doc's position, then come "] ", the title, a newline and the content |
| ChatRoute.BuildContext | app/api/chat/route.ts:36-38 | the context is empty exactly when no document was retrieved, and otherwise starts with the first document's entry, numbered 1 |
| ChatRoute.FirstTicket | app/api/chat/route.ts:42-53 | the first ticket is deflected exactly when a document was found; tier 1 when deflected and 3 otherwise; severity "Medium"; no answer |
| ChatRoute.BlockedTicket | app/api/chat/route.ts:63-72 | the blocked ticket carries the refusal as its answer, tier 1, "High", not deflected, and is never equal to a first ticket |
| ChatRoute.FirstTicketAgreesWithClassifier | app/api/chat/route.ts:43-53 | without a critical phrase, the first ticket is deflected iff the classifier does not escalate; tier 1 iff TIER_1 and tier 3 iff TIER_2; severity "Medium" / MEDIUM |
| ChatRoute.CriticalQueryDisagreesWithClassifier | app/api/chat/route.ts:42-53 | "my vm had a kernel panic" with a document found gets a first ticket of tier 1, "Medium", deflected, while the classifier rates it TIER_2 / HIGH / escalated |
| ChatRoute.BlockedTicketAgreesWithClassifier | app/api/chat/route.ts:63-72 | the blocked ticket is tier 1, "High", not deflected and carries the refusal text, as the classifier rates a blocked query TIER_1 / HIGH |
| ChatRoute.SendRefusal | app/api/chat/route.ts:75-88 | the refusal stream enqueues exactly the refusal delta record and the stop record, in the given record syntax, then is closed; the route passes the `data: <json>\n\n` syntax |
| ChatRoute.Post | app/api/chat/route.ts:17-162 | an empty message list fails before any I/O; a rejected search fails after the search alone; otherwise the request streams, and the effects, the records and the final stream state are those of `TurnEffects`, `TurnChunks` and `TurnEnd` |
| ChatRoute.TurnEffects | app/api/chat/route.ts:29-130 | a turn whose search rejects has the search as its only effect; any other turn has three effects, the first of them the search |
| ChatRoute.TurnChunks | app/api/chat/route.ts:74-146 | a blocked query's records are exactly the refusal delta and stop; a response without records only happens for an allowed query whose model call throws |
| ChatRoute.TurnEnd | app/api/chat/route.ts:74-153 | the stream never stays open; it ends errored exactly when the query reached the model and the model threw |
| ChatRoute.RejectedSearchSkipsGuardrail | lib/rag.ts:21-26 | a rejected search leaves the search as the turn's only effect: no ticket and no model call, even for a deny-listed query, which with a successful search is logged twice |
| ChatRoute.BlockedTurn | app/api/chat/route.ts:29-73 | a blocked turn searches, inserts the first ticket, then the blocked ticket: two inserts and no model call |
| ChatRoute.BlockedReply | app/api/chat/route.ts:74-98 | a blocked query's body is exactly [refusal delta, stop], reads back as those two records, and the stream ends closed, whatever the model would have sent |
| ChatRoute.AllowedTurn | app/api/chat/route.ts:22-130 | an allowed turn searches, inserts one ticket, then sends the mapped history, the numbered context and the query: one insert and one model call |
| ChatRoute.AllowedReply | app/api/chat/route.ts:126-153 | an allowed query's body is the answer records of the upstream and reads back as exactly those; the stream ends errored iff upstream throws |
| ChatRoute.BlockedQueryCanLogDeflectedTicket | app/api/chat/route.ts:43-72 | a blocked query with a retrieved document gets a first ticket that is deflected, tier 1, "Medium" |
| ChatStream.SseIsUnambiguous | app/api/chat/route.ts:79-84 | the stop record's JSON and a delta record's JSON part ways before the delta's content starts, so a reader can tell them apart |
| ChatStream.OnlyStopWritesStop | app/api/chat/route.ts:79-84 | under an unambiguous syntax, the JSON `RecordJson` writes is the stop record's exactly for the stop chunk |
| ChatStream.RecordFraming | app/api/chat/route.ts:77-86 | every record `Record` writes is the prefix, the record's JSON, then the end marker |
| ChatStream.RecordJsonReadsBack | app/api/chat/route.ts:79-84 | for any record syntax whose two kinds part ways like that, the JSON of a delta record or the stop record is read back as that record, whatever follows |
| ChatStream.RecordsRoundTrip | app/api/chat/route.ts:136-146 | for any such syntax, reading the concatenation of the records written for a chunk sequence gives back exactly that sequence |
| ChatStream.FramesRoundTrip | app/api/chat/route.ts:136-146 | the `data: <json>\n\n` records are self-delimiting: reading the concatenated body gives back exactly the records sent |
| ChatStream.DeltasAreNonEmpty | app/api/chat/route.ts:132-135 | every chunk `Deltas` makes is a delta with a non-empty fragment |
| ChatStream.StopIsLastAndOnlyOnSuccess | app/api/chat/route.ts:129-151 | in `AnswerChunks`, a stop record appears iff upstream completes, exactly once and last; when upstream throws there is none; every other record is a non-empty delta |
| ChatStream.AnswerTextIsUpstreamText | app/api/chat/route.ts:131-141 | the deltas carry exactly the concatenation of the model's fragments: nothing lost or reordered |
| ChatStream.StreamController.constructor | app/api/chat/route.ts:126-127 | a new stream is readable and empty |
| ChatStream.StreamController.Enqueue | app/api/chat/route.ts:136-140 | a readable stream gains the record at the end; otherwise nothing changes |
| ChatStream.StreamController.Error | app/api/chat/route.ts:147-148 | a readable stream becomes errored and keeps its records |
| ChatStream.StreamController.Close | app/api/chat/route.ts:149-150 | a readable stream becomes closed; an errored one stays errored |
| ChatStream.Pump | app/api/chat/route.ts:126-153 | the stream gets exactly the records of `AnswerChunks`, in the given record syntax (one per non-empty fragment, then stop on success) and ends errored iff upstream throws, closed otherwise |
| Json.EscapeBounds | app/api/chat/route.ts:138 | `Escape` never shortens a string, writes at most six characters per character, and leaves a string without quotes, backslashes or control characters as it is |
| Json.ReadEscaped | app/api/chat/route.ts:138 | the escaped body of a string, then a quote, reads back as that string and leaves the text after it |
| Json.QuotedRoundTrip | app/api/chat/route.ts:138 | the string literal `Quoted` writes for the delta content, as `JSON.stringify` does, reads back as that content |
| Json.ReadEscapeChar | app/api/chat/route.ts:138 | every escape sequence written for a character reads back as that character |
| Text.LowerFolds | app/api/chat/route.ts:41 | `Lower` keeps the length, leaves no ASCII capital, and changes no character but the capitals |
| Text.ContainsAny | app/api/chat/route.ts:62 | only a pattern no longer than the text can be found in it |
| Text.ContainsAnyAsSplit | app/api/chat/route.ts:62 | `ps.some(p => s.includes(p))` holds iff `s` is some text, one pattern, then more text |
| Text.DecimalRoundTrip | app/api/chat/route.ts:37 | the decimal rendering of a number reads back as that number |
| Text.IntToStringInjective | app/api/metrics/route.ts:14 | different integers render as different property names |
| Text.JoinEnds | app/api/chat/route.ts:38 | `Join` of no elements is empty; otherwise the result starts with the first element and ends with the last |
| Text.JoinSnoc | app/api/chat/route.ts:38 | joining one more element appends the separator and that element |
| Text.StrLessTransitive | app/api/metrics/trends/route.ts:29 | the date order is transitive |
| Text.StrLessTotal | app/api/metrics/trends/route.ts:29 | any two different dates are ordered one way or the other |
| Text.StrLessAsymmetric | app/api/metrics/trends/route.ts:29 | no two dates are each before the other |
| Tickets.TierKey | app/api/metrics/route.ts:14 | a numeric tier's key is a non-empty decimal text, starting with "-" exactly for a negative tier and all digits otherwise; a label is its own key |
| Tickets.NumericKeysDistinct | app/api/metrics/route.ts:14 | different numeric tiers are counted under different keys |
| Tickets.NumberAndDigitLabelShareKey | app/api/metrics/route.ts:14 | tier `n` and the label spelling its digits share one key |
| Tally.CountKeyPositive | app/api/metrics/route.ts:13-16 | a key is counted at least once iff some row carries it, and at most once per row |
| Tally.PartitionSum | app/api/metrics/route.ts:13-18 | over a list naming every key that occurs, each once, the counts add up to the number of rows |
| Trends.DayOf | app/api/metrics/trends/route.ts:18 | the day is the text before the first "T", or all of it |
| Trends.Add | app/api/metrics/trends/route.ts:22-26 | a ticket adds one to the total and at most one to the two tier counters together, since no tier is both; at most one to each other counter |
| Trends.DayTotals | app/api/metrics/trends/route.ts:17-27 | a day's entry is dated by the day; tier1 + tier2, highSeverity and blocked never exceed total |
| Trends.DayTotalsCounts | app/api/metrics/trends/route.ts:19-26 | a day's total counts the tickets of that day |
| Trends.NoTicketsNoCounts | app/api/metrics/trends/route.ts:19-21 | a day with no tickets so far has every counter at zero |
| Trends.CountTicket | app/api/metrics/trends/route.ts:17-27 | the ticket's day is created zeroed if new, then its counters are bumped; no other day changes; a new day is appended to the insertion order |
| Trends.Aggregate | app/api/metrics/trends/route.ts:15-27 | the dictionary holds exactly the days that occur, each with that day's totals, and lists each day once |
| Trends.InsertByDate | app/api/metrics/trends/route.ts:29 | inserting keeps the entries ascending by date and adds exactly the new entry |
| Trends.SortByDate | app/api/metrics/trends/route.ts:29 | the result is ascending by date and is a permutation of the input |
| Trends.AscendingIsStrict | app/api/metrics/trends/route.ts:29 | ascending neighbours make every earlier date strictly before every later one |
| Trends.OrderedArrangementIsUnique | app/api/metrics/trends/route.ts:29 | two strictly date-ordered sequences with the same entries are equal, so the sort result does not depend on insertion order |
| Trends.IsTrendReport | app/api/metrics/trends/route.ts:15-31 | a trend report is empty exactly when there are no tickets |
| Trends.Get | app/api/metrics/trends/route.ts:4-35 | a failed query gives status 500 with its message; otherwise the body is the trend report of the tickets |
| Trends.ReportIsDetermined | app/api/metrics/trends/route.ts:15-31 | two trend reports of the same tickets are equal |
| Trends.ReportEntryBounds | app/api/metrics/trends/route.ts:19-26 | each entry stands for 1 to n tickets; tier1 + tier2, highSeverity and blocked never exceed total |
| Trends.ReportTotalsCoverAllTickets | app/api/metrics/trends/route.ts:17-27 | the totals of the report add up to the number of tickets |
| Trends.ChatRouteTiersNeverCountAsTier2 | app/api/metrics/trends/route.ts:24 | tickets with tiers 1 and 3, as the chat route writes them, never count as tier2 |
| Metrics.TierCounts | app/api/metrics/route.ts:13-16 | the accumulator has a key for exactly the tiers that occur, each mapped to the number of tickets with that tier |
| Metrics.DeflectedCount | app/api/metrics/route.ts:19 | at most the number of rows; zero iff no row is deflected; all rows iff every row is |
| Metrics.DeflectedCountIsTally | app/api/metrics/route.ts:19 | the filter's count equals the count of tickets labelled deflected, and with the not-deflected ones it makes up all tickets |
| Metrics.DeflectionRate | app/api/metrics/route.ts:20-22 | zero tickets give the fixed "0"; otherwise the deflected/total ratio, deflected <= total |
| Metrics.IsSummary | app/api/metrics/route.ts:13-27 | a summary has no tier keys exactly when totalTickets is zero |
| Metrics.Get | app/api/metrics/route.ts:3-29 | a failed query gives status 500 with its message; otherwise the body is the summary of the rows |
| Metrics.TierCountsAddUpToTotal | app/api/metrics/route.ts:13-27 | the tier counts, listed in any order, add up to totalTickets |
| Metrics.TierCountBounds | app/api/metrics/route.ts:13-18 | every tier present is counted between 1 and totalTickets times |
| Metrics.RateIsAShare | app/api/metrics/route.ts:18-22 | the rate is the "0" case iff there are no rows; otherwise deflected <= total == number of rows |
| Metrics.ChatRouteTicketsUseTwoKeys | app/api/metrics/route.ts:13-16 | on tickets with tiers 1 and 3, as the chat route writes them, the only keys are "1" and "3" |

## Left out

- The language model, retrieval, the embedding RPC and the database client are not modelled. Their results are parameters: the documents found or a rejected search, the upstream fragments with a failure flag, and the query outcome. The calls appear only as effects.
- `crypto.randomUUID` is not modelled: the two session ids are parameters.
- `TextEncoder` is not modelled: records are strings, not bytes.
- `console.log`, the prompt template text and the model configuration are not modelled.
- Json.EscapeChar: JavaScript strings are UTF-16 code units, and `JSON.stringify` writes a lone surrogate as a `\udxxx` escape. A Dafny `char` cannot hold a lone surrogate, so that case is not modelled.
- Case folding covers ASCII letters only. JavaScript's full Unicode `toLowerCase` (for example "İ") is not modelled.
- Text.StrLessTotal: `localeCompare` is modelled as code-point order. The two agree on the `YYYY-MM-DD` strings `toISOString` yields, but not on arbitrary text.
- Trends.DayOf: `new Date(created_at).toISOString()` is not modelled. `created_at` is taken as already in ISO form. An unparsable date, which makes the route throw and answer 500, is not modelled.
- Trends.SortByDate: it requires distinct dates. The dictionary's entries always have distinct dates, so the route never reaches the comparator's tie case.
- Metrics.DeflectionRate: the floating-point percentage and its `toFixed(1)` text are not modelled. Only the zero case "0" and the ratio are.
- ChatStream.StreamController.Error: the WHATWG stream discards queued records when it errors. The model keeps them, to show what was sent before the throw.
- ChatStream.StreamController.Close: closing an errored stream throws a TypeError in `finally`, which rejects `start` and is not observable by the client. Here it changes nothing.
- Tickets.TierKey: `acc` is a plain object, so a label naming an `Object.prototype` member is not counted as modelled: `"__proto__"` adds no key and `"constructor"` yields a garbled value. The model treats every label as an ordinary key.
- Tickets.TierKey: JavaScript numbers are doubles. A tier of magnitude 10^21 or more prints in exponent form, and integers beyond 2^53 are not exact; the model renders every integer in plain decimal.
- Metrics.TicketRow: a `null` tier (key "null") and a `null` `data` without an error are not modelled. Neither are `deflected` values other than booleans; `=== true` treats them as not deflected.
- Trends.Get: a `null` `tickets` without an error, which the route treats as no tickets, is not modelled.
- Retrieval similarity, the tickets route, the UI pages and the seed scripts are outside the modelled core.
