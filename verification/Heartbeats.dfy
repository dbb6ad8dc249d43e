/**
 * `_with_heartbeats` inside `_stream`: a producer task, a buffer of 64 entries and a consumer
 * that sends a comment whenever nothing arrives in time.  Every list of events is a run.
 */
module Heartbeats {
  import opened Wrappers
  import opened Json
  import opened Chunks
  import opened Sse

  const CAPACITY: nat := 64

  datatype Item = Chunk(chunk: Json) | End(final: Final)

  /**
   * `source`: chunks the backend has still to send; `final`: its end, until it is put into
   * the buffer.  `Ended`: the consumer took the end; `Stopped`: it was cancelled.
   */
  datatype Consumer = Serving | Ended | Stopped

  datatype State = State(source: seq<Json>, final: Option<Final>, buffer: seq<Item>, body: seq<Piece>, consumer: Consumer)

  datatype Event = Produce | Timeout | Take | Stop

  /** How a chunk is shown to the client: its event, or None if it is filtered. */
  type Show = Json -> Option<string>

  type Dump = Json -> string

  /** `BackendError.api_error` as a JSON body. */
  function ErrorBody(status: nat, message: string): Json {
    Obj(map["error" := Obj(map[
      "message" := Str(message),
      "type" := Str(if status >= 500 then "server_error" else "invalid_request_error"),
      "param" := Null,
      "code" := Null])])
  }

  /** The client is told the message, and whether it or the server is to blame. */
  lemma ErrorsByStatus(status: nat, message: string)
    ensures var body := ErrorBody(status, message);
      && body.Obj? && body.fields.Keys == {"error"} && body.fields["error"].Obj?
      && var error := body.fields["error"].fields;
        && Get(error, "message") == Str(message)
        && (Get(error, "type") == Str("server_error") <==> status >= 500)
        && (Get(error, "type") == Str("invalid_request_error") <==> status < 500)
  {
  }

  function Terminator(final: Final, dump: Dump): seq<string> {
    match final
    case Clean => ["[DONE]"]
    case BackendError(status, message) => [dump(ErrorBody(status, message))]
    case Crash => []
  }

  function Shown(item: Item, show: Show, dump: Dump): seq<string> {
    match item
    case Chunk(c) => if show(c).Some? then [show(c).value] else []
    case End(final) => Terminator(final, dump)
  }

  function AllShown(items: seq<Item>, show: Show, dump: Dump): seq<string> {
    if items == [] then [] else Shown(items[0], show, dump) + AllShown(items[1..], show, dump)
  }

  function Pieces(payloads: seq<string>): (pieces: seq<Piece>)
    ensures |pieces| == |payloads| && forall i :: 0 <= i < |pieces| ==> pieces[i] == Data(payloads[i])
  {
    seq(|payloads|, i requires 0 <= i < |payloads| => Data(payloads[i]))
  }

  function Next(s: State, e: Event, show: Show, dump: Dump): Option<State> {
    if !s.consumer.Serving? then None else
    match e
    case Produce =>
      if |s.buffer| >= CAPACITY then None
      else if s.source != [] then Some(s.(source := s.source[1..], buffer := s.buffer + [Chunk(s.source[0])]))
      else if s.final.Some? then Some(s.(final := None, buffer := s.buffer + [End(s.final.value)]))
      else None
    case Timeout => Some(s.(body := s.body + [KeepAlive]))
    case Take =>
      if s.buffer == [] then None
      else
        var item := s.buffer[0];
        Some(s.(buffer := s.buffer[1..],
                body := s.body + Pieces(Shown(item, show, dump)),
                consumer := if item.End? then Ended else Serving))
    case Stop => Some(s.(consumer := Stopped))
  }

  function Do(s: State, e: Event, show: Show, dump: Dump): State {
    if Next(s, e, show, dump).Some? then Next(s, e, show, dump).value else s
  }

  function Run(s: State, events: seq<Event>, show: Show, dump: Dump): State
    decreases |events|
  {
    if events == [] then s else Run(Do(s, events[0], show, dump), events[1..], show, dump)
  }

  function Start(chunks: seq<Json>, final: Final): State {
    State(chunks, Some(final), [], [], Serving)
  }

  function ToItems(chunks: seq<Json>): (items: seq<Item>)
    ensures |items| == |chunks| && forall i :: 0 <= i < |items| ==> items[i] == Chunk(chunks[i])
  {
    seq(|chunks|, i requires 0 <= i < |chunks| => Chunk(chunks[i]))
  }

  /** Everything still to come: what is in the buffer, the chunks to be read, the end. */
  function Coming(s: State): seq<Item> {
    s.buffer + ToItems(s.source) + match s.final { case Some(f) => [End(f)] case None => [] }
  }

  /** What the client is meant to see. */
  function Expected(chunks: seq<Json>, final: Final, show: Show, dump: Dump): seq<string> {
    AllShown(ToItems(chunks) + [End(final)], show, dump)
  }

  /** The end is the last thing to come, and it comes exactly once. */
  ghost predicate EndsOnce(s: State) {
    var items := Coming(s);
    if s.consumer.Ended? then items == []
    else items != [] && forall i :: 0 <= i < |items| ==> (items[i].End? <==> i == |items| - 1)
  }

  ghost predicate Inv(s: State, expected: seq<string>, show: Show, dump: Dump) {
    && |s.buffer| <= CAPACITY
    && EndsOnce(s)
    && Payloads(s.body) + AllShown(Coming(s), show, dump) == expected
  }

  lemma {:induction false} PayloadsAppend(a: seq<Piece>, b: seq<Piece>)
    ensures Payloads(a + b) == Payloads(a) + Payloads(b)
  {
    if b == [] {
      assert a + b == a;
    } else {
      assert (a + b)[..|a + b| - 1] == a + b[..|b| - 1];
      PayloadsAppend(a, b[..|b| - 1]);
    }
  }

  lemma {:induction false} PayloadsOfPieces(payloads: seq<string>)
    ensures Payloads(Pieces(payloads)) == payloads
  {
    if payloads != [] {
      var n := |payloads| - 1;
      assert Pieces(payloads)[..n] == Pieces(payloads[..n]);
      PayloadsOfPieces(payloads[..n]);
    }
  }

  lemma ProduceMoves(s: State, show: Show, dump: Dump)
    requires Next(s, Produce, show, dump).Some?
    ensures Coming(Do(s, Produce, show, dump)) == Coming(s)
  {
  }

  lemma TakeShows(s: State, show: Show, dump: Dump)
    requires Next(s, Take, show, dump).Some? && EndsOnce(s)
    ensures var t := Do(s, Take, show, dump);
      && EndsOnce(t) && |t.buffer| < |s.buffer|
      && AllShown(Coming(s), show, dump) == Shown(s.buffer[0], show, dump) + AllShown(Coming(t), show, dump)
      && Payloads(t.body) == Payloads(s.body) + Shown(s.buffer[0], show, dump)
  {
    var item, t := s.buffer[0], Do(s, Take, show, dump);
    assert s.buffer == [item] + s.buffer[1..];
    assert Coming(s) == [item] + Coming(t);
    assert Coming(s)[1..] == Coming(t);
    forall i | 0 <= i < |Coming(t)|
      ensures Coming(t)[i] == Coming(s)[i + 1]
    {
    }
    PayloadsAppend(s.body, Pieces(Shown(item, show, dump)));
    PayloadsOfPieces(Shown(item, show, dump));
  }

  lemma StepKeeps(s: State, e: Event, expected: seq<string>, show: Show, dump: Dump)
    requires Inv(s, expected, show, dump)
    ensures Inv(Do(s, e, show, dump), expected, show, dump)
  {
    if Next(s, e, show, dump).Some? {
      match e
      case Produce => ProduceMoves(s, show, dump);
      case Take => TakeKeeps(s, expected, show, dump);
      case Timeout => SameComing(s, s.(body := s.body + [KeepAlive]));
      case Stop => SameComing(s, s.(consumer := Stopped));
    }
  }

  lemma TakeKeeps(s: State, expected: seq<string>, show: Show, dump: Dump)
    requires Inv(s, expected, show, dump) && Next(s, Take, show, dump).Some?
    ensures Inv(Do(s, Take, show, dump), expected, show, dump)
  {
    hide EndsOnce, Coming, AllShown, Shown, Payloads, Pieces, Do;
    TakeShows(s, show, dump);
    var t := Do(s, Take, show, dump);
    assert Payloads(t.body) + AllShown(Coming(t), show, dump) == expected;
  }

  lemma SameComing(s: State, t: State)
    requires s.buffer == t.buffer && s.source == t.source && s.final == t.final
    ensures Coming(s) == Coming(t) && Payloads(s.body + [KeepAlive]) == Payloads(s.body)
  {
    assert (s.body + [KeepAlive])[..|s.body|] == s.body;
  }

  lemma {:induction false} RunsKeepInvariant(s: State, events: seq<Event>, expected: seq<string>, show: Show, dump: Dump)
    requires Inv(s, expected, show, dump)
    ensures Inv(Run(s, events, show, dump), expected, show, dump)
    decreases |events|
  {
    if events != [] {
      StepKeeps(s, events[0], expected, show, dump);
      RunsKeepInvariant(Do(s, events[0], show, dump), events[1..], expected, show, dump);
    }
  }

  ghost predicate SingleLines(show: Show, dump: Dump) {
    && (forall c :: show(c).Some? ==> '\n' !in show(c).value && '\r' !in show(c).value)
    && (forall j :: '\n' !in dump(j) && '\r' !in dump(j))
  }

  /** Only one-line payloads are ever written. */
  lemma {:induction false} RunsWriteLines(s: State, events: seq<Event>, show: Show, dump: Dump)
    requires SingleLines(show, dump) && OneLine(s.body)
    ensures OneLine(Run(s, events, show, dump).body)
    decreases |events|
  {
    if events != [] {
      RunsWriteLines(Do(s, events[0], show, dump), events[1..], show, dump);
    }
  }

  /**
   * For every interleaving of producer, buffer, timeouts and consumer: what a client reads
   * from the body so far is a beginning of the expected events, one per chunk that is not
   * filtered, in the backend's order, then one terminator; and once the consumer has taken
   * the end it is all of them.  The buffer never holds more than 64 entries.
   */
  lemma HeartbeatsAreTransparent(chunks: seq<Json>, final: Final, events: seq<Event>, show: Show, dump: Dump)
    requires SingleLines(show, dump)
    ensures var s := Run(Start(chunks, final), events, show, dump);
      && Sse.Events(Body(s.body)) <= Expected(chunks, final, show, dump)
      && (s.consumer.Ended? ==> Sse.Events(Body(s.body)) == Expected(chunks, final, show, dump))
      && |s.buffer| <= CAPACITY
  {
    var start, expected := Start(chunks, final), Expected(chunks, final, show, dump);
    assert Coming(start) == ToItems(chunks) + [End(final)];
    assert Inv(start, expected, show, dump);
    RunsKeepInvariant(start, events, expected, show, dump);
    RunsWriteLines(start, events, show, dump);
    var s := Run(start, events, show, dump);
    BodyReadsAsPayloads(s.body);
    assert Payloads(s.body) + AllShown(Coming(s), show, dump) == expected;
  }

  /** Nothing gets stuck: until the end is taken, the producer or the consumer can go on. */
  lemma NeverStuck(s: State, expected: seq<string>, show: Show, dump: Dump)
    requires Inv(s, expected, show, dump) && s.consumer.Serving?
    ensures Next(s, Produce, show, dump).Some? || Next(s, Take, show, dump).Some?
  {
  }

  /** And only so often: each chunk, and the end, is put and taken once. */
  function Work(s: State): nat {
    2 * |s.source| + |s.buffer| + if s.final.Some? then 2 else 0
  }

  lemma WorkGoesDown(s: State, e: Event, show: Show, dump: Dump)
    requires (e.Produce? || e.Take?) && Next(s, e, show, dump).Some?
    ensures Work(Do(s, e, show, dump)) < Work(s)
  {
  }

  // --- the gateway's own way of showing chunks ---

  /** `_stream` shows a chunk with `public_chunk`, unless it only reports unwanted usage. */
  ghost predicate ShowsForwarded(show: Show, dump: Dump, model: string, includeUsage: bool) {
    forall c :: WellFormed(c) ==>
      show(c) == if Filtered(c, includeUsage) then None else Some(dump(PublicChunk(c, model)))
  }

  function Dumped(chunks: seq<Json>, dump: Dump): (r: seq<string>)
    ensures |r| == |chunks| && forall i :: 0 <= i < |r| ==> r[i] == dump(chunks[i])
  {
    seq(|chunks|, i requires 0 <= i < |chunks| => dump(chunks[i]))
  }

  lemma {:induction false} AllShownAppend(a: seq<Item>, b: seq<Item>, show: Show, dump: Dump)
    ensures AllShown(a + b, show, dump) == AllShown(a, show, dump) + AllShown(b, show, dump)
  {
    if a == [] {
      assert a + b == b;
    } else {
      assert (a + b)[1..] == a[1..] + b;
      AllShownAppend(a[1..], b, show, dump);
    }
  }

  /** The expected events are the forwarded chunks, then the terminator. */
  lemma {:induction false} ExpectedIsForwarded(chunks: seq<Json>, final: Final, show: Show, dump: Dump, model: string, includeUsage: bool)
    requires AllWellFormed(chunks) && ShowsForwarded(show, dump, model, includeUsage)
    ensures Expected(chunks, final, show, dump)
      == Dumped(Forwarded(chunks, model, includeUsage), dump) + Terminator(final, dump)
  {
    ShownIsForwarded(chunks, show, dump, model, includeUsage);
    AllShownAppend(ToItems(chunks), [End(final)], show, dump);
    assert [End(final)][1..] == [];
  }

  lemma {:induction false} ShownIsForwarded(chunks: seq<Json>, show: Show, dump: Dump, model: string, includeUsage: bool)
    requires AllWellFormed(chunks) && ShowsForwarded(show, dump, model, includeUsage)
    ensures AllShown(ToItems(chunks), show, dump) == Dumped(Forwarded(chunks, model, includeUsage), dump)
  {
    hide WellFormed, Filtered, PublicChunk, AllShown, Dumped, ToItems, Shown;
    if chunks == [] {
      NothingShown(show, dump);
    } else {
      var n := |chunks| - 1;
      var before, last := chunks[..n], chunks[n];
      assert WellFormed(last);
      ShownIsForwarded(before, show, dump, model, includeUsage);
      assert chunks == before + [last];
      IsObject(last);
      ItemsAppend(before, last);
      AllShownAppend(ToItems(before), [Chunk(last)], show, dump);
      ShownOne(last, show, dump);
      var sent := if Filtered(last, includeUsage) then [] else [PublicChunk(last, model)];
      DumpedAppend(Forwarded(before, model, includeUsage), sent, dump);
    }
  }

  lemma IsObject(c: Json)
    requires WellFormed(c)
    ensures c.Obj?
  {
  }

  lemma NothingShown(show: Show, dump: Dump)
    ensures AllShown(ToItems([]), show, dump) == [] && Dumped([], dump) == []
  {
  }

  lemma ItemsAppend(chunks: seq<Json>, last: Json)
    ensures ToItems(chunks + [last]) == ToItems(chunks) + [Chunk(last)]
  {
  }

  lemma ShownOne(c: Json, show: Show, dump: Dump)
    ensures AllShown([Chunk(c)], show, dump) == if show(c).Some? then [show(c).value] else []
  {
    assert [Chunk(c)][1..] == [];
  }

  lemma DumpedAppend(a: seq<Json>, b: seq<Json>, dump: Dump)
    ensures Dumped(a + b, dump) == Dumped(a, dump) + Dumped(b, dump)
    ensures |b| == 1 ==> Dumped(b, dump) == [dump(b[0])]
    ensures |b| == 0 ==> Dumped(b, dump) == []
  {
  }
}
