/**
 * From one backend to two clients: what a client reads from the streamed body, whatever the
 * interleaving, against what a client that does not stream gets for the same request.
 */
module Answers {
  import opened Wrappers
  import opened Json
  import opened Chunks
  import opened BackendStream
  import opened Heartbeats
  import Sse
  import Strings = Text

  /** What is dumped here can be loaded, and the end mark is not JSON. */
  ghost predicate Codec(dump: Dump, load: Decoder, values: seq<Json>) {
    (forall j :: j in values ==> load(dump(j)) == Some(j)) && load(DONE).None?
  }

  /** The values that are dumped for a streaming client. */
  function Sent(chunks: seq<Json>, end: Final, model: string, includeUsage: bool): seq<Json>
    requires AllWellFormed(chunks)
  {
    Forwarded(chunks, model, includeUsage)
      + if end.BackendError? then [ErrorBody(end.status, end.message)] else []
  }

  function Front(events: seq<string>): seq<string>
    requires events != []
  {
    events[..|events| - 1]
  }

  function Ending(events: seq<string>): string
    requires events != []
  {
    events[|events| - 1]
  }

  /** The events are the chunks, dumped. */
  ghost predicate Carries(events: seq<string>, chunks: seq<Json>, load: Decoder) {
    |events| == |chunks| && forall i :: 0 <= i < |events| ==> load(events[i]) == Some(chunks[i])
  }

  /** The choices a streaming client sees say what the assembled answer says. */
  ghost predicate SaysTheSame(sent: seq<Json>, a: Answer)
    requires AllOk(sent)
  {
    Agrees(sent, a.content, a.reasoning, a.calls, a.finish)
  }

  /**
   * Once the consumer has taken the end, the client has the forwarded chunks and then either
   * the end mark or the very error that the assembled answer reports. The end mark stands for
   * success, with the same content, reasoning, calls and finish reason as the assembled
   * answer, in every case but one: a stream that ends cleanly without any chunk is an error
   * only for the client that does not stream.
   */
  lemma StreamedIsAssembled(
      backend: Backend, decode: Decoder, chunks: seq<Json>, end: Final, reply: Reply,
      events: seq<Event>, show: Show, dump: Dump, load: Decoder, model: string, includeUsage: bool)
    requires Yields(backend, decode, chunks, end) && AllWellFormed(chunks) && IsReply(reply, chunks, end)
    requires ShowsForwarded(show, dump, model, includeUsage) && SingleLines(show, dump)
    requires Codec(dump, load, Sent(chunks, end, model, includeUsage))
    requires Run(Start(chunks, end), events, show, dump).consumer.Ended?
    ensures var seen := Sse.Events(Sse.Body(Run(Start(chunks, end), events, show, dump).body));
      && seen != [] && AllWellFormed(Forwarded(chunks, model, includeUsage))
      && Carries(Front(seen), Forwarded(chunks, model, includeUsage), load)
      && (Ending(seen) == DONE <==> reply.Assembled? || (end.Clean? && chunks == []))
      && (Ending(seen) != DONE ==> reply.Failed? && load(Ending(seen)) == Some(ErrorBody(reply.status, reply.message)))
      && (reply.Assembled? ==>
            && AllOk(Choices(Forwarded(chunks, model, includeUsage)))
            && SaysTheSame(Choices(Forwarded(chunks, model, includeUsage)), reply.answer))
  {
    hide Yields, ShowsForwarded, SingleLines, WellFormed, PublicChunk, Choices, Forwarded, Run, Answers;
    NeverCrashes(backend, decode, chunks, end);
    HeartbeatsAreTransparent(chunks, end, events, show, dump);
    ExpectedIsForwarded(chunks, end, show, dump, model, includeUsage);
    AnswersAgree(chunks, model, includeUsage);
    var sent := Forwarded(chunks, model, includeUsage);
    var seen := Sse.Events(Sse.Body(Run(Start(chunks, end), events, show, dump).body));
    assert seen == Dumped(sent, dump) + Terminator(end, dump);
    assert |Terminator(end, dump)| == 1;
    assert Front(seen) == Dumped(sent, dump);
    assert forall i :: 0 <= i < |sent| ==> sent[i] in Sent(chunks, end, model, includeUsage);
    assert end.BackendError? ==> ErrorBody(end.status, end.message) in Sent(chunks, end, model, includeUsage);
    if reply.Assembled? { SameForBoth(chunks, sent, reply.answer); }
  }

  function Ticks(n: nat): (s: string)
    ensures |s| == n && forall c :: c in s ==> c == '0'
  {
    seq(n, _ => '0')
  }

  /** The first place of a value in a list. */
  function Place(values: seq<Json>, j: Json): (i: nat)
    ensures i <= |values| && (j in values ==> i < |values| && values[i] == j)
  {
    if values == [] || values[0] == j then 0 else 1 + Place(values[1..], j)
  }

  /** A printer that numbers these values, and its reader. */
  function Numbering(values: seq<Json>): Dump {
    j => Ticks(Place(values, j))
  }

  function Reading(values: seq<Json>): Decoder {
    t => if |t| < |values| && t == Ticks(|t|) then Some(values[|t|]) else None
  }

  lemma NumbersReadBack(values: seq<Json>)
    ensures Codec(Numbering(values), Reading(values), values)
  {
    var dump, load := Numbering(values), Reading(values);
    forall j | j in values ensures load(dump(j)) == Some(j) {
      var i := Place(values, j);
      assert dump(j) == Ticks(i) && |dump(j)| == i;
    }
    assert DONE[0] == '[' && DONE[0] in DONE;
    assert DONE != Ticks(|DONE|);
  }

  function Showing(dump: Dump, model: string, includeUsage: bool): Show {
    c => if WellFormed(c) && !Filtered(c, includeUsage) then Some(dump(PublicChunk(c, model))) else None
  }

  lemma ShowingIsForwarding(dump: Dump, model: string, includeUsage: bool)
    ensures ShowsForwarded(Showing(dump, model, includeUsage), dump, model, includeUsage)
    ensures (forall j :: '\n' !in dump(j) && '\r' !in dump(j)) ==> SingleLines(Showing(dump, model, includeUsage), dump)
  {
    hide WellFormed, Filtered, PublicChunk;
  }

  /** Every finite stream has such a printer and reader, so the statements about them are not empty. */
  lemma CodecsExist(chunks: seq<Json>, end: Final, model: string, includeUsage: bool)
      returns (show: Show, dump: Dump, load: Decoder)
    requires AllWellFormed(chunks)
    ensures ShowsForwarded(show, dump, model, includeUsage) && SingleLines(show, dump)
    ensures Codec(dump, load, Sent(chunks, end, model, includeUsage))
  {
    hide Sent, WellFormed, Codec, ShowsForwarded, Showing, SingleLines, Reading;
    var values := Sent(chunks, end, model, includeUsage);
    dump, load := Numbering(values), Reading(values);
    show := Showing(dump, model, includeUsage);
    NumbersReadBack(values);
    ShowingIsForwarding(dump, model, includeUsage);
  }

  lemma NeverCrashes(backend: Backend, decode: Decoder, chunks: seq<Json>, end: Final)
    requires Yields(backend, decode, chunks, end)
    ensures !end.Crash?
  {
    OutcomeIsUnique(backend, decode, chunks, end, chunks, end);
  }

  lemma SameForBoth(chunks: seq<Json>, sent: seq<Json>, a: Answer)
    requires AllWellFormed(chunks) && AllWellFormed(sent) && chunks != [] && Answers(chunks, a)
    requires var own, theirs := Choices(chunks), Choices(sent);
      && AllOk(own) && AllOk(theirs)
      && Chunks.Text(theirs, "content") == Chunks.Text(own, "content") && Chunks.Text(theirs, "reasoning") == Chunks.Text(own, "reasoning")
      && Calls(theirs) == Calls(own) && Finish(theirs) == Finish(own)
    ensures SaysTheSame(Choices(sent), a)
  {
    hide WellFormed, Choices, Chunks.Text, Calls, Finish, ChoiceOk;
  }

  /** The one case in which the two clients disagree: only the end mark is sent. */
  lemma EmptyAnswersDisagree(decode: Decoder, reply: Reply, show: Show, dump: Dump)
    requires SingleLines(show, dump) && IsReply(reply, [], Clean)
    ensures var s := Run(Start([], Clean), [Produce, Take], show, dump);
      && Yields(Streams(["data: [DONE]"], false), decode, [], Clean)
      && s.consumer.Ended? && Sse.Events(Sse.Body(s.body)) == [DONE] && reply.Failed?
  {
    OnlyTheEndMark();
    EndIsTaken(show, dump);
    hide Run, SingleLines, BackendStream.Payloads;
    HeartbeatsAreTransparent([], Clean, [Produce, Take], show, dump);
    assert ToItems([]) + [End(Clean)] == [End(Clean)] && [End(Clean)][1..] == [];
    assert Expected([], Clean, show, dump) == [DONE];
  }

  lemma EndIsTaken(show: Show, dump: Dump)
    ensures Run(Start([], Clean), [Produce, Take], show, dump).consumer.Ended?
  {
    assert [Produce, Take][1..] == [Take] && [Take][1..] == [];
    var s := Do(Start([], Clean), Produce, show, dump);
    assert s.buffer == [End(Clean)];
  }

  lemma OnlyTheEndMark()
    ensures BackendStream.Payloads(["data: [DONE]"]) == [DONE]
  {
    var line := "data: [DONE]";
    assert line[..5] == "data:" && line[5..] == " [DONE]";
    StripsToDone();
    hide Strings.Strip;
    assert Payload(line) == Some(DONE);
    assert [line][..0] == [];
  }

  lemma StripsToDone()
    ensures Strings.Strip(" [DONE]") == DONE
  {
    assert Strings.IsSpace(' ') && !Strings.IsSpace('[') && !Strings.IsSpace(']');
    hide Strings.IsSpace;
    var t := " [DONE]";
    assert t[|t| - 1] == ']' && Strings.RStrip(t) == t;
    assert t[0] == ' ' && t[1..] == DONE && DONE[0] == '[';
    assert Strings.LStrip(t) == Strings.LStrip(DONE) == DONE;
  }
}
