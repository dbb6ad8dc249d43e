/**
 * `backend_chunks`: from what the backend does with a request to chunks and an end.  `decode`
 * is the JSON decoder; None stands for text it refuses.
 */
module BackendStream {
  import opened Wrappers
  import opened Json
  import opened Text
  import opened Chunks
  import Sizes

  type Decoder = string -> Option<Json>

  /**
   * The backend cannot be reached, rejects the request (with a status other than 200), or
   * sends lines; `broken`: the connection fails in the body of the rejection or after these
   * lines.
   */
  datatype Backend =
    NotRunning | NotAnswering | Rejects(status: nat, broken: bool) | Streams(lines: seq<string>, broken: bool)

  const INVALID := BackendError(502, "the model server sent an invalid chunk")
  const FAILED := BackendError(502, "the model server failed while answering")
  const EARLY := BackendError(502, "the model server ended the response early")

  function Rejection(status: nat): Final {
    BackendError(if status >= 500 then 502 else 400,
                 "the model server rejected the request (HTTP " + Sizes.Decimal(status) + ")")
  }

  const DONE := "[DONE]"

  /** The payload of a `data:` line; other lines (blank, comments) carry nothing. */
  function Payload(line: string): Option<string> {
    if |line| >= 5 && line[..5] == "data:" then Some(Strip(line[5..])) else None
  }

  /** The payloads of all lines, in order. */
  function Payloads(lines: seq<string>): seq<string> {
    if lines == [] then []
    else
      var n := |lines| - 1;
      Payloads(lines[..n]) + match Payload(lines[n]) { case Some(p) => [p] case None => [] }
  }

  /** The payload is a chunk the gateway can read. */
  predicate Readable(p: string, decode: Decoder) {
    p != DONE && decode(p).Some? && WellFormed(decode(p).value)
  }

  /** The first `n` payloads are readable and these are their chunks. */
  ghost predicate Decodes(payloads: seq<string>, decode: Decoder, chunks: seq<Json>) {
    |chunks| <= |payloads| && forall i :: 0 <= i < |chunks| ==>
      Readable(payloads[i], decode) && decode(payloads[i]) == Some(chunks[i])
  }

  /** How a stream with these payloads ends after these chunks. */
  ghost predicate EndsAs(payloads: seq<string>, broken: bool, decode: Decoder, chunks: seq<Json>, end: Final) {
    Decodes(payloads, decode, chunks) &&
    if |chunks| == |payloads| then end == if broken then FAILED else EARLY
    else
      var p := payloads[|chunks|];
      !Readable(p, decode) &&
      end == if p == DONE then Clean else if decode(p).None? then FAILED else INVALID
  }

  /** What comes of one request: these chunks, then this end. */
  ghost predicate Yields(backend: Backend, decode: Decoder, chunks: seq<Json>, end: Final) {
    match backend
    case NotRunning => chunks == [] && end == BackendError(503, "the model server is not running")
    case NotAnswering => chunks == [] && end == BackendError(503, "the model server is not answering")
    case Rejects(status, broken) => chunks == [] && end == if broken then FAILED else Rejection(status)
    case Streams(lines, broken) => EndsAs(Payloads(lines), broken, decode, chunks, end)
  }

  /** What the log line will say about the answer. */
  class RequestRecord {
    var finishReason: Json
    var backendPromptTokens: Json
    var completionTokens: Json
    var cachedTokens: Json

    constructor ()
      ensures finishReason == backendPromptTokens == completionTokens == cachedTokens == Null
    {
      finishReason, backendPromptTokens, completionTokens, cachedTokens := Null, Null, Null, Null;
    }

    /** The record reflects the last usage and the last finish reason among the chunks. */
    ghost predicate Reflects(chunks: seq<Json>)
      requires AllWellFormed(chunks)
      reads this
    {
      AllOk(Choices(chunks)) && finishReason == Finish(Choices(chunks)) && RecordsUsage(Usage(chunks))
    }

    ghost predicate RecordsUsage(usage: Json)
      reads this
    {
      if usage.Obj? then
        && backendPromptTokens == Get(usage.fields, "prompt_tokens")
        && completionTokens == Get(usage.fields, "completion_tokens")
        && cachedTokens == (var details := Or(Get(usage.fields, "prompt_tokens_details"), Obj(map[]));
                            if details.Obj? then Get(details.fields, "cached_tokens") else Null)
      else backendPromptTokens == completionTokens == cachedTokens == Null
    }

    method Note(chunk: Json, ghost before: seq<Json>)
      requires WellFormed(chunk) && AllWellFormed(before) && Reflects(before)
      modifies this
      ensures AllWellFormed(before + [chunk]) && Reflects(before + [chunk])
    {
      hide ChoiceOk, Finish, Usage, Choices;
      ChunkStep(before, chunk);
      ghost var seen, all := Choices(before), before + [chunk];
      var usage := Get(chunk.fields, "usage");
      if Truthy(usage) {
        backendPromptTokens := Get(usage.fields, "prompt_tokens");
        completionTokens := Get(usage.fields, "completion_tokens");
        cachedTokens := Get(Or(Get(usage.fields, "prompt_tokens_details"), Obj(map[])).fields, "cached_tokens");
      }
      NoteFinish(ChoicesOf(chunk).items, seen);
    }

    method NoteFinish(choices: seq<Json>, ghost seen: seq<Json>)
      requires AllOk(choices) && AllOk(seen) && finishReason == Finish(seen)
      modifies this`finishReason
      ensures AllOk(seen + choices) && finishReason == Finish(seen + choices)
    {
      hide ChoiceOk, Finish;
      assert seen + choices[..0] == seen;
      for j := 0 to |choices|
        invariant AllOk(seen + choices[..j]) && finishReason == Finish(seen + choices[..j])
      {
        FinishStep(seen + choices[..j], choices[j]);
        assert seen + choices[..j] + [choices[j]] == seen + choices[..j + 1];
        var reason := FinishReason(choices[j]);
        if Truthy(reason) { finishReason := reason; }
      }
      assert choices[..|choices|] == choices;
    }

    function FinishReason(choice: Json): Json
      requires ChoiceOk(choice)
    {
      Get(choice.fields, "finish_reason")
    }
  }

  /** One payload: another chunk, or the end. */
  method Accept(data: string, decode: Decoder, chunks: seq<Json>, record: RequestRecord, ghost payloads: seq<string>, ghost broken: bool)
      returns (more: seq<Json>, end: Option<Final>)
    requires AllWellFormed(chunks) && record.Reflects(chunks) && Decodes(payloads, decode, chunks)
    requires |chunks| < |payloads| && payloads[|chunks|] == data
    modifies record
    ensures AllWellFormed(more) && record.Reflects(more)
    ensures match end
      case None => Decodes(payloads, decode, more) && |more| == |chunks| + 1
      case Some(e) => EndsAs(payloads, broken, decode, more, e)
  {
    hide Finish, Usage, Choices, ChoiceOk, RequestRecord.Reflects;
    if data == DONE { return chunks, Some(Clean); }
    var decoded := decode(data);
    if decoded.None? { return chunks, Some(FAILED); }
    var chunk := decoded.value;
    if !WellFormed(chunk) { return chunks, Some(INVALID); }
    record.Note(chunk, chunks);
    return chunks + [chunk], None;
  }

  /**
   * Yields the decoded payloads before the first `[DONE]` or unreadable one, and succeeds only
   * if it is a `[DONE]`; every other way to end has its own error for the client.
   */
  method BackendChunks(backend: Backend, decode: Decoder, record: RequestRecord)
      returns (chunks: seq<Json>, end: Final)
    requires record.Reflects([])
    modifies record
    ensures Yields(backend, decode, chunks, end) && !end.Crash?
    ensures AllWellFormed(chunks) && record.Reflects(chunks)
    ensures backend.Rejects? ==>
      chunks == [] && end.BackendError? && end.status == if !backend.broken && backend.status < 500 then 400 else 502
  {
    match backend
    case NotRunning => return [], BackendError(503, "the model server is not running");
    case NotAnswering => return [], BackendError(503, "the model server is not answering");
    case Rejects(status, broken) => return [], if broken then FAILED else Rejection(status);
    case Streams(lines, broken) => chunks, end := ReadChunks(lines, broken, decode, record);
  }

  /** The loop over the lines of an answer. */
  method ReadChunks(lines: seq<string>, broken: bool, decode: Decoder, record: RequestRecord)
      returns (chunks: seq<Json>, end: Final)
    requires record.Reflects([])
    modifies record
    ensures EndsAs(Payloads(lines), broken, decode, chunks, end) && !end.Crash?
    ensures AllWellFormed(chunks) && record.Reflects(chunks)
  {
    hide WellFormed, Readable, Finish, Usage, Choices, Payloads, Payload, RequestRecord.Reflects, Strip, AllOk;
    chunks := [];
    NoPayloads(lines);
    for i := 0 to |lines|
      invariant AllWellFormed(chunks) && record.Reflects(chunks)
      invariant Decodes(Payloads(lines), decode, chunks) && |chunks| == |Payloads(lines[..i])|
    {
      NextPayload(lines, i);
      if |lines[i]| >= 5 && lines[i][..5] == "data:" {
        var stop: Option<Final>;
        chunks, stop := Accept(Strip(lines[i][5..]), decode, chunks, record, Payloads(lines), broken);
        if stop.Some? { return chunks, stop.value; }
      }
    }
    end := if broken then FAILED else EARLY;
  }

  /** Lines one after the other carry their payloads one after the other. */
  lemma {:induction false} PayloadsAppend(a: seq<string>, b: seq<string>)
    ensures Payloads(a + b) == Payloads(a) + Payloads(b)
  {
    hide Payload;
    if b == [] {
      assert a + b == a;
    } else {
      assert (a + b)[..|a + b| - 1] == a + b[..|b| - 1];
      PayloadsAppend(a, b[..|b| - 1]);
    }
  }

  /** A data line carries what stands behind the colon, without blanks around it; other lines carry nothing. */
  lemma PayloadsOne(line: string, payload: string)
    requires payload != "" && !IsSpace(payload[0]) && !IsSpace(payload[|payload| - 1])
    ensures Payloads(["data:" + payload]) == Payloads(["data: " + payload]) == [payload]
    ensures !("data:" <= line) ==> Payloads([line]) == []
  {
    hide Strip, IsSpace, Payload, Payloads;
    StripsTo(payload);
    DataLine("data:" + payload, payload);
    assert "data: " + payload == "data:" + (" " + payload);
    DataLine("data: " + payload, " " + payload);
    OneLine("data:" + payload);
    OneLine("data: " + payload);
    OneLine(line);
    OtherLine(line);
  }

  lemma OtherLine(line: string)
    ensures Payload(line).Some? ==> "data:" <= line
  {
    hide Strip;
    if |line| >= 5 && line[..5] == "data:" { assert line == "data:" + line[5..]; }
  }

  lemma DataLine(line: string, rest: string)
    requires line == "data:" + rest
    ensures Payload(line) == Some(Strip(rest))
  {
    hide Strip;
    assert line[..5] == "data:" && line[5..] == rest;
  }

  lemma OneLine(line: string)
    ensures Payloads([line]) == match Payload(line) { case Some(p) => [p] case None => [] }
  {
    hide Payload;
    assert [line][..0] == [];
  }

  lemma StripsTo(payload: string)
    requires payload != "" && !IsSpace(payload[0]) && !IsSpace(payload[|payload| - 1])
    ensures Strip(payload) == Strip(" " + payload) == payload
  {
    var apart := " " + payload;
    assert apart[|apart| - 1] == payload[|payload| - 1] && RStrip(apart) == apart;
    assert IsSpace(apart[0]) && apart[1..] == payload;
    assert LStrip(apart) == LStrip(payload) == payload;
  }

  lemma NoPayloads(lines: seq<string>)
    ensures Payloads(lines[..0]) == [] && Payloads(lines[..|lines|]) == Payloads(lines)
  {
    assert lines[..|lines|] == lines;
  }

  /** The next line adds its payload, if it has one. */
  lemma NextPayload(lines: seq<string>, i: nat)
    requires i < |lines|
    ensures var line, all, n := lines[i], Payloads(lines), |Payloads(lines[..i])|;
      if |line| >= 5 && line[..5] == "data:" then
        |Payloads(lines[..i + 1])| == n + 1 <= |all| && all[n] == Strip(line[5..])
      else |Payloads(lines[..i + 1])| == n <= |all|
  {
    assert lines[..i + 1][..i] == lines[..i];
    PayloadsGrow(lines, i + 1);
  }

  lemma {:induction false} PayloadsGrow(lines: seq<string>, i: nat)
    requires i <= |lines|
    ensures Payloads(lines[..i]) <= Payloads(lines)
    decreases |lines|
  {
    if i == |lines| {
      assert lines[..i] == lines;
    } else {
      var init := lines[..|lines| - 1];
      assert init[..i] == lines[..i];
      PayloadsGrow(init, i);
    }
  }

  lemma EndIsUnique(payloads: seq<string>, broken: bool, decode: Decoder,
                    a: seq<Json>, endA: Final, b: seq<Json>, endB: Final)
    requires EndsAs(payloads, broken, decode, a, endA) && EndsAs(payloads, broken, decode, b, endB)
    ensures a == b && endA == endB
  {
    if |a| == |b| {
      assert forall i :: 0 <= i < |a| ==> Some(a[i]) == Some(b[i]);
    }
  }

  /** The chunks and the end are the only ones that fit: a request cannot come out in two ways. */
  lemma OutcomeIsUnique(backend: Backend, decode: Decoder, a: seq<Json>, endA: Final, b: seq<Json>, endB: Final)
    requires Yields(backend, decode, a, endA) && Yields(backend, decode, b, endB)
    ensures a == b && endA == endB && !endA.Crash?
  {
    if backend.Streams? {
      EndIsUnique(Payloads(backend.lines), backend.broken, decode, a, endA, b, endB);
    }
  }

  /** Every way a stream can end, by its cause: only the end mark is a success. */
  lemma EndsByCause(lines: seq<string>, broken: bool, decode: Decoder, chunks: seq<Json>, end: Final)
    requires Yields(Streams(lines, broken), decode, chunks, end)
    ensures var all, n := Payloads(lines), |chunks|;
      && n <= |all| && (forall i :: 0 <= i < n ==> all[i] != "[DONE]" && decode(all[i]) == Some(chunks[i]) && WellFormed(chunks[i]))
      && end == if n == |all| then
          BackendError(502, if broken then "the model server failed while answering" else "the model server ended the response early")
        else if all[n] == "[DONE]" then Clean
        else if decode(all[n]).None? then BackendError(502, "the model server failed while answering")
        else BackendError(502, "the model server sent an invalid chunk")
  {
    hide Payloads, WellFormed;
  }

  datatype Reply = Assembled(answer: Answer) | Failed(status: nat, message: string)

  /** The assembled answer to these chunks. */
  ghost predicate Answers(chunks: seq<Json>, a: Answer)
    requires AllWellFormed(chunks) && chunks != []
  {
    && AllOk(Choices(chunks)) && Agrees(Choices(chunks), a.content, a.reasoning, a.calls, a.finish)
    && a.first == First(chunks) && a.usage == Usage(chunks)
  }

  /** What a client that does not stream gets. */
  ghost predicate IsReply(reply: Reply, chunks: seq<Json>, end: Final)
    requires AllWellFormed(chunks)
  {
    match end
    case Clean =>
      if chunks == [] then reply == Failed(502, "the model server sent no answer")
      else reply.Assembled? && Answers(chunks, reply.answer)
    case BackendError(status, message) => reply == Failed(status, message)
    case Crash => false
  }

  /** `_complete`: the assembled answer if the stream ends cleanly after a chunk, else the error. */
  method Complete(backend: Backend, decode: Decoder, record: RequestRecord)
      returns (reply: Reply, ghost chunks: seq<Json>, ghost end: Final)
    requires record.Reflects([])
    modifies record
    ensures Yields(backend, decode, chunks, end) && AllWellFormed(chunks) && record.Reflects(chunks)
    ensures IsReply(reply, chunks, end)
  {
    hide Yields, WellFormed, Finish, Choices, Agrees, RequestRecord.Reflects;
    var sent, how := BackendChunks(backend, decode, record);
    chunks, end := sent, how;
    if how.BackendError? { return Failed(how.status, how.message), chunks, end; }
    if sent == [] { return Failed(502, "the model server sent no answer"), chunks, end; }
    var answer := Collect(sent);
    reply := Assembled(answer);
  }
}
