/**
 * The streaming half of the chat route (app/api/chat/route.ts): the
 * `data: <json>\n\n` records it writes, the stream controller it writes them
 * to, and the loop that forwards the language model's fragments. The
 * upstream model call is a parameter: the fragments it yields, in order,
 * and whether it then throws instead of finishing.
 */
module ChatStream {
  import opened Wrappers
  import Json

  /** What one record carries: a content delta, or the terminal stop marker. */
  datatype Chunk = Delta(content: string) | Stop

  /**
   * The fixed text of the records: what comes before and after each
   * record's JSON, the JSON of a delta record around its content literal,
   * and the whole JSON of the stop record.
   */
  datatype Syntax = Syntax(prefix: string, end: string, open: string, close: string, stop: string)

  /**
   * A reader can tell the two kinds of record apart: the stop record's JSON
   * differs, at some position, from the start of every delta record's JSON
   * up to the quote that opens its content.
   */
  predicate Unambiguous(syn: Syntax) {
    exists k :: 0 <= k <= |syn.open| && k < |syn.stop| && syn.stop[k] != (syn.open + [Json.Quote])[k]
  }

  /**
   * The route's records: `data: <json>\n\n`, where `<json>` is
   * `{"choices":[{"delta":{"content":<literal>}}]}` for a delta and
   * `{"choices":[{"delta":{},"finish_reason":"stop"}]}` for the stop record.
   */
  const Sse: Syntax := Syntax(
    "data: ",
    "\n\n",
    "{\"choices\":[{\"delta\":{\"content\":",
    "}}]}",
    "{\"choices\":[{\"delta\":{},\"finish_reason\":\"stop\"}]}")

  lemma SseIsUnambiguous()
    ensures Unambiguous(Sse)
  {
    // `{"choices":[{"delta":{` is followed by `"content"` in a delta and by `}` in the stop record
    assert Sse.stop[22] != (Sse.open + [Json.Quote])[22];
  }

  /** `JSON.stringify` of the record object for a chunk. */
  function RecordJson(syn: Syntax, c: Chunk): string {
    match c
    case Delta(s) => syn.open + Json.Quoted(s) + syn.close
    case Stop => syn.stop
  }

  /**
   * Under an unambiguous syntax the JSON of a record is the stop record's
   * exactly for the stop chunk: no delta, whatever its content, is written
   * like it.
   */
  lemma OnlyStopWritesStop(syn: Syntax, c: Chunk)
    requires Unambiguous(syn)
    ensures RecordJson(syn, c) == syn.stop <==> c.Stop?
  {
    if c.Delta? {
      var r := RecordJson(syn, c);
      var k :| 0 <= k <= |syn.open| && k < |syn.stop| && syn.stop[k] != (syn.open + [Json.Quote])[k];
      assert r[k] == (syn.open + [Json.Quote])[k];
    }
  }

  /** The text of one enqueued record. */
  function Record(syn: Syntax, c: Chunk): string {
    syn.prefix + RecordJson(syn, c) + syn.end
  }

  /** Every record opens with the prefix and closes with the end marker, around its JSON. */
  lemma RecordFraming(syn: Syntax, c: Chunk)
    ensures var r := Record(syn, c);
      && |r| == |syn.prefix| + |RecordJson(syn, c)| + |syn.end|
      && r[..|syn.prefix|] == syn.prefix
      && r[|syn.prefix|..|r| - |syn.end|] == RecordJson(syn, c)
      && r[|r| - |syn.end|..] == syn.end
  {
  }

  function Records(syn: Syntax, cs: seq<Chunk>): seq<string> {
    seq(|cs|, i requires 0 <= i < |cs| => Record(syn, cs[i]))
  }

  /** The route's records for a sequence of chunks. */
  function Frames(cs: seq<Chunk>): seq<string> {
    Records(Sse, cs)
  }

  lemma RecordsOfTwo(syn: Syntax, a: Chunk, b: Chunk)
    ensures Records(syn, [a, b]) == [Record(syn, a), Record(syn, b)]
  {
  }

  /** The response body as the client reads it: the records one after another. */
  function Concat(ss: seq<string>): string {
    if ss == [] then "" else ss[0] + Concat(ss[1..])
  }

  lemma {:induction false} ConcatSnoc(ss: seq<string>, s: string)
    ensures Concat(ss + [s]) == Concat(ss) + s
  {
    if ss != [] {
      assert (ss + [s])[1..] == ss[1..] + [s];
      ConcatSnoc(ss[1..], s);
    }
  }

  predicate StartsWith(s: string, p: string) {
    |p| <= |s| && s[..|p|] == p
  }

  /** Reads one record's JSON from the front of `s`, returning the text after it. */
  function ReadRecordJson(syn: Syntax, s: string): (r: Option<(Chunk, string)>)
    requires Unambiguous(syn)
    ensures r.Some? ==> |r.value.1| < |s|
  {
    if StartsWith(s, syn.stop) then Some((Stop, s[|syn.stop|..]))
    else if StartsWith(s, syn.open + [Json.Quote]) then
      match Json.ReadStringBody(s[|syn.open| + 1..])
      case None => None
      case Some((v, rest)) =>
        if StartsWith(rest, syn.close) then Some((Delta(v), rest[|syn.close|..])) else None
    else None
  }

  /** Splits a response body back into its records, as a client of the route would. */
  function ReadRecords(syn: Syntax, s: string): Option<seq<Chunk>>
    requires Unambiguous(syn)
    decreases |s|
  {
    if s == [] then Some([])
    else if !StartsWith(s, syn.prefix) then None
    else
      match ReadRecordJson(syn, s[|syn.prefix|..])
      case None => None
      case Some((c, rest)) =>
        if !StartsWith(rest, syn.end) then None
        else
          match ReadRecords(syn, rest[|syn.end|..])
          case None => None
          case Some(cs) => Some([c] + cs)
  }

  /** The route's body read back into chunks. */
  function ReadFrames(s: string): Option<seq<Chunk>> {
    SseIsUnambiguous();
    ReadRecords(Sse, s)
  }

  lemma StartsWithConcat(p: string, t: string)
    ensures StartsWith(p + t, p) && (p + t)[|p|..] == t
  {
    assert (p + t)[..|p|] == p;
  }

  /** The JSON written for a record is read back as that record, whatever follows it. */
  lemma RecordJsonReadsBack(syn: Syntax, c: Chunk, t: string)
    requires Unambiguous(syn)
    ensures ReadRecordJson(syn, RecordJson(syn, c) + t) == Some((c, t))
  {
    var s := RecordJson(syn, c) + t;
    match c
    case Stop =>
      StartsWithConcat(syn.stop, t);
    case Delta(v) =>
      var after := Json.Escape(v) + [Json.Quote] + (syn.close + t);
      assert s == (syn.open + [Json.Quote]) + after;
      var k :| 0 <= k <= |syn.open| && k < |syn.stop| && syn.stop[k] != (syn.open + [Json.Quote])[k];
      assert s[k] == (syn.open + [Json.Quote])[k];
      if |syn.stop| <= |s| {
        assert s[..|syn.stop|][k] != syn.stop[k];
      }
      StartsWithConcat(syn.open + [Json.Quote], after);
      Json.ReadEscaped(v, syn.close + t);
      StartsWithConcat(syn.close, t);
  }

  /** Reading a record followed by more text yields that record, then whatever the rest yields. */
  lemma ReadRecordsCons(syn: Syntax, c: Chunk, tail: string, cs: seq<Chunk>)
    requires Unambiguous(syn)
    requires ReadRecords(syn, tail) == Some(cs)
    ensures ReadRecords(syn, Record(syn, c) + tail) == Some([c] + cs)
  {
    var json := RecordJson(syn, c);
    var body := json + (syn.end + tail);
    var s := syn.prefix + body;
    assert Record(syn, c) + tail == s;
    StartsWithConcat(syn.prefix, body);
    RecordJsonReadsBack(syn, c, syn.end + tail);
    StartsWithConcat(syn.end, tail);
  }

  /**
   * Framing round trip: the records are self-delimiting, so a client reading
   * the concatenated body recovers exactly the chunks that were sent.
   */
  lemma RecordsRoundTrip(syn: Syntax, cs: seq<Chunk>)
    requires Unambiguous(syn)
    ensures ReadRecords(syn, Concat(Records(syn, cs))) == Some(cs)
  {
    ReadBody(syn, Records(syn, cs), cs);
  }

  /** Reading the records `rs` one after another gives back the chunks they were written from. */
  lemma {:induction false} ReadBody(syn: Syntax, rs: seq<string>, cs: seq<Chunk>)
    requires Unambiguous(syn)
    requires |rs| == |cs| && forall i :: 0 <= i < |rs| ==> rs[i] == Record(syn, cs[i])
    ensures ReadRecords(syn, Concat(rs)) == Some(cs)
  {
    if rs != [] {
      ReadBody(syn, rs[1..], cs[1..]);
      ReadRecordsCons(syn, cs[0], Concat(rs[1..]), cs[1..]);
      assert [cs[0]] + cs[1..] == cs;
    }
  }

  /** A client reading the route's body gets back exactly the chunks that were sent. */
  lemma FramesRoundTrip(cs: seq<Chunk>)
    ensures ReadFrames(Concat(Frames(cs))) == Some(cs)
  {
    SseIsUnambiguous();
    RecordsRoundTrip(Sse, cs);
  }

  /** What the upstream model call does: the fragments it yields, then either the end or a throw. */
  datatype Upstream = Upstream(fragments: seq<string>, fails: bool)

  /** One delta per non-empty fragment, in order; empty fragments are skipped. */
  function Deltas(fragments: seq<string>): seq<Chunk> {
    if fragments == [] then []
    else
      var last := fragments[|fragments| - 1];
      Deltas(fragments[..|fragments| - 1]) + DeltaOf(last)
  }

  /** The record one fragment gives: none for an empty fragment. */
  function DeltaOf(fragment: string): seq<Chunk> {
    if fragment == "" then [] else [Delta(fragment)]
  }

  /** The chunks the route sends for an upstream: the deltas, then `stop` unless upstream threw. */
  function AnswerChunks(up: Upstream): seq<Chunk> {
    Deltas(up.fragments) + (if up.fails then [] else [Stop])
  }

  /** Every chunk made from fragments is a delta with non-empty content. */
  lemma {:induction false} DeltasAreNonEmpty(fragments: seq<string>)
    ensures forall i :: 0 <= i < |Deltas(fragments)| ==>
      Deltas(fragments)[i].Delta? && Deltas(fragments)[i].content != ""
  {
    if fragments != [] {
      DeltasAreNonEmpty(fragments[..|fragments| - 1]);
    }
  }

  /**
   * Termination marker: a stop record appears exactly once, as the last
   * record, on normal completion, and never when the upstream call throws;
   * every other record is a non-empty delta.
   */
  lemma StopIsLastAndOnlyOnSuccess(up: Upstream)
    ensures var cs := AnswerChunks(up);
      && (forall i :: 0 <= i < |cs| ==> (cs[i] == Stop <==> !up.fails && i == |cs| - 1))
      && (forall i :: 0 <= i < |cs| && cs[i].Delta? ==> cs[i].content != "")
      && (up.fails ==> Stop !in cs)
      && (!up.fails ==> cs != [] && cs[|cs| - 1] == Stop)
  {
    DeltasAreNonEmpty(up.fragments);
  }

  /** The text the deltas carry, in order. */
  function DeltaText(cs: seq<Chunk>): string {
    if cs == [] then ""
    else DeltaText(cs[..|cs| - 1]) + (match cs[|cs| - 1] case Delta(s) => s case Stop => "")
  }

  lemma {:induction false} DeltaTextAppend(a: seq<Chunk>, b: seq<Chunk>)
    ensures DeltaText(a + b) == DeltaText(a) + DeltaText(b)
  {
    if b != [] {
      DeltaTextAppend(a, b[..|b| - 1]);
      assert (a + b)[..|a + b| - 1] == a + b[..|b| - 1];
    } else {
      assert a + b == a;
    }
  }

  /**
   * Nothing is lost or reordered: the deltas carry exactly the text the
   * model produced, the concatenation of all its fragments.
   */
  lemma {:induction false} AnswerTextIsUpstreamText(up: Upstream)
    ensures DeltaText(AnswerChunks(up)) == Concat(up.fragments)
  {
    DeltasText(up.fragments);
    DeltaTextAppend(Deltas(up.fragments), if up.fails then [] else [Stop]);
    assert DeltaText([Stop]) == "";
  }

  lemma {:induction false} DeltasText(fragments: seq<string>)
    ensures DeltaText(Deltas(fragments)) == Concat(fragments)
  {
    if fragments != [] {
      var init, last := fragments[..|fragments| - 1], fragments[|fragments| - 1];
      DeltasText(init);
      DeltaTextAppend(Deltas(init), DeltaOf(last));
      DeltaTextOfFragment(last);
      ConcatInit(fragments);
    }
  }

  lemma DeltaTextOfFragment(fragment: string)
    ensures DeltaText(DeltaOf(fragment)) == fragment
  {
    if fragment != "" {
      assert DeltaOf(fragment)[..0] == [];
    }
  }

  lemma ConcatInit(ss: seq<string>)
    requires ss != []
    ensures Concat(ss) == Concat(ss[..|ss| - 1]) + ss[|ss| - 1]
  {
    ConcatSnoc(ss[..|ss| - 1], ss[|ss| - 1]);
    assert ss == ss[..|ss| - 1] + [ss[|ss| - 1]];
  }

  lemma DeltasStep(fragments: seq<string>, i: nat)
    requires i < |fragments|
    ensures Deltas(fragments[..i + 1]) == Deltas(fragments[..i]) + DeltaOf(fragments[i])
  {
    assert fragments[..i + 1][..i] == fragments[..i];
  }

  lemma RecordsAppend(syn: Syntax, a: seq<Chunk>, b: seq<Chunk>)
    ensures Records(syn, a + b) == Records(syn, a) + Records(syn, b)
  {
  }

  /** The state of a `ReadableStream`. */
  datatype StreamState = Readable | Closed | Errored

  /**
   * The `ReadableStreamDefaultController` the route writes to: what has been
   * enqueued, in order, and the state of the stream. Enqueueing into or
   * closing a stream that is no longer readable throws a TypeError. The
   * route only enqueues while the stream is readable; the `close()` in its
   * `finally` can meet an errored stream, and its TypeError only rejects
   * `start`, which no client sees. Here both change nothing.
   */
  class StreamController {
    var chunks: seq<string>
    var state: StreamState

    constructor ()
      ensures chunks == [] && state == Readable
    {
      chunks := [];
      state := Readable;
    }

    /** `controller.enqueue(chunk)`. */
    method Enqueue(chunk: string)
      modifies this
      ensures state == old(state)
      ensures chunks == if old(state) == Readable then old(chunks) + [chunk] else old(chunks)
    {
      if state == Readable {
        chunks := chunks + [chunk];
      }
    }

    /** `controller.error(e)`: a readable stream becomes errored. */
    method Error()
      modifies this
      ensures chunks == old(chunks)
      ensures state == if old(state) == Readable then Errored else old(state)
    {
      if state == Readable {
        state := Errored;
      }
    }

    /** `controller.close()`: a readable stream becomes closed. */
    method Close()
      modifies this
      ensures chunks == old(chunks)
      ensures state == if old(state) == Readable then Closed else old(state)
    {
      if state == Readable {
        state := Closed;
      }
    }
  }

  /**
   * The body of the response stream's `start`: forward each non-empty
   * fragment as a delta record, then the stop record; if the upstream call
   * throws, error the stream instead of sending `stop`. The `finally` close
   * only closes a stream that did not error. The route writes its records
   * in the syntax `Sse`; the loop is the same for any record syntax.
   */
  method Pump(controller: StreamController, syn: Syntax, up: Upstream)
    requires controller.state == Readable
    modifies controller
    ensures controller.chunks == old(controller.chunks) + Records(syn, AnswerChunks(up))
    ensures controller.state == if up.fails then Errored else Closed
  {
    var i := 0;
    while i < |up.fragments|
      invariant 0 <= i <= |up.fragments|
      invariant controller.state == Readable
      invariant controller.chunks == old(controller.chunks) + Records(syn, Deltas(up.fragments[..i]))
    {
      var delta := up.fragments[i];
      DeltasStep(up.fragments, i);
      RecordsAppend(syn, Deltas(up.fragments[..i]), DeltaOf(delta));
      i := i + 1;
      if |delta| == 0 {
        continue;
      }
      controller.Enqueue(Record(syn, Delta(delta)));
    }
    assert up.fragments[..i] == up.fragments;
    if up.fails {
      controller.Error();
    } else {
      controller.Enqueue(Record(syn, Stop));
    }
    RecordsAppend(syn, Deltas(up.fragments), if up.fails then [] else [Stop]);
    controller.Close();
  }
}
