/**
 * The backend's stream chunks and the two ways of answering with them: forwarded one by one
 * (`_stream`, after `public_chunk`) or assembled into one response (`_collect`).
 */
module Chunks {
  import opened Wrappers
  import opened Json

  /** How a stream of chunks ends: cleanly, with an error for the client, or with another one. */
  datatype Final = Clean | BackendError(status: nat, message: string) | Crash

  // --- shape ---

  function ChoicesOf(chunk: Json): Json
    requires chunk.Obj?
  {
    Or(Get(chunk.fields, "choices"), Arr([]))
  }

  function DeltaOf(choice: Json): Json
    requires choice.Obj?
  {
    Or(Get(choice.fields, "delta"), Obj(map[]))
  }

  function CallsOf(delta: Json): Json
    requires delta.Obj?
  {
    Or(Get(delta.fields, "tool_calls"), Arr([]))
  }

  predicate CountOk(j: Json) {
    j.Null? || j.Int?
  }

  predicate UsageOk(usage: Json) {
    usage.Null? || (usage.Obj? &&
      var details := Or(Get(usage.fields, "prompt_tokens_details"), Obj(map[]));
      details.Obj? && CountOk(Get(usage.fields, "prompt_tokens"))
      && CountOk(Get(usage.fields, "completion_tokens")) && CountOk(Get(details.fields, "cached_tokens")))
  }

  predicate TextOk(delta: Json, key: string)
    requires delta.Obj?
  {
    Or(Get(delta.fields, key), Str("")).Str?
  }

  predicate ChoiceOk(choice: Json) {
    choice.Obj? &&
    var delta := DeltaOf(choice);
    delta.Obj? && TextOk(delta, "content") && TextOk(delta, "reasoning")
    && CallsOf(delta).Arr? && forall c :: c in CallsOf(delta).items ==> c.Obj?
  }

  /** `_well_formed`. */
  predicate WellFormed(chunk: Json) {
    chunk.Obj? && UsageOk(Get(chunk.fields, "usage"))
    && ChoicesOf(chunk).Arr? && forall c :: c in ChoicesOf(chunk).items ==> ChoiceOk(c)
  }

  ghost predicate AllWellFormed(chunks: seq<Json>) {
    forall c :: c in chunks ==> WellFormed(c)
  }

  // --- what a reader of the stream makes of it ---

  /** All choices of all chunks, in order. */
  function Choices(chunks: seq<Json>): seq<Json>
    requires forall c :: c in chunks ==> WellFormed(c)
  {
    if chunks == [] then []
    else
      var n := |chunks| - 1;
      assert WellFormed(chunks[n]);
      Choices(chunks[..n]) + ChoicesOf(chunks[n]).items
  }

  ghost predicate AllOk(choices: seq<Json>) {
    forall c :: c in choices ==> ChoiceOk(c)
  }

  lemma {:induction false} ChoicesAreOk(chunks: seq<Json>)
    requires AllWellFormed(chunks)
    ensures AllOk(Choices(chunks)) && Objects(Choices(chunks))
  {
    if chunks != [] {
      assert WellFormed(chunks[|chunks| - 1]);
      ChoicesAreOk(chunks[..|chunks| - 1]);
    }
  }

  function TextIn(choice: Json, key: string): string
    requires ChoiceOk(choice)
  {
    var value := Get(DeltaOf(choice).fields, key);
    if value.Str? then value.s else ""
  }

  /** The texts under one key of the deltas, joined. */
  function Text(choices: seq<Json>, key: string): string
    requires forall c :: c in choices ==> ChoiceOk(c)
  {
    if choices == [] then ""
    else
      var n := |choices| - 1;
      assert ChoiceOk(choices[n]);
      Text(choices[..n], key) + TextIn(choices[n], key)
  }

  /** The tool calls of the deltas, as they came. */
  function Calls(choices: seq<Json>): seq<Json>
    requires forall c :: c in choices ==> ChoiceOk(c)
  {
    if choices == [] then []
    else
      var n := |choices| - 1;
      assert ChoiceOk(choices[n]);
      Calls(choices[..n]) + CallsOf(DeltaOf(choices[n])).items
  }

  function WithoutIndex(call: Json): Json
    requires call.Obj?
  {
    Obj(call.fields - {"index"})
  }

  /** The last finish reason that says something. */
  function Finish(choices: seq<Json>): Json
    requires forall c :: c in choices ==> ChoiceOk(c)
  {
    if choices == [] then Null
    else
      var n := |choices| - 1;
      assert ChoiceOk(choices[n]);
      Or(Get(choices[n].fields, "finish_reason"), Finish(choices[..n]))
  }

  /** The last usage that says something. */
  function Usage(chunks: seq<Json>): Json
    requires forall c :: c in chunks ==> WellFormed(c)
  {
    if chunks == [] then Null
    else
      var n := |chunks| - 1;
      assert WellFormed(chunks[n]);
      Or(Get(chunks[n].fields, "usage"), Usage(chunks[..n]))
  }

  /** One chunk more. */
  lemma ChunkStep(before: seq<Json>, chunk: Json)
    requires AllWellFormed(before) && WellFormed(chunk)
    ensures AllWellFormed(before + [chunk]) && AllOk(Choices(before + [chunk])) && AllOk(ChoicesOf(chunk).items)
    ensures Choices(before + [chunk]) == Choices(before) + ChoicesOf(chunk).items
    ensures Usage(before + [chunk]) == Or(Get(chunk.fields, "usage"), Usage(before))
  {
    var all := before + [chunk];
    assert all[..|before|] == before;
    ChoicesAreOk(all);
  }

  /** One choice more. */
  lemma FinishStep(seen: seq<Json>, choice: Json)
    requires AllOk(seen) && ChoiceOk(choice)
    ensures AllOk(seen + [choice])
    ensures Finish(seen + [choice]) == Or(Get(choice.fields, "finish_reason"), Finish(seen))
  {
    assert (seen + [choice])[..|seen|] == seen;
  }

  // --- the assembled answer ---

  datatype Answer = Answer(first: Json, content: string, reasoning: string, calls: seq<Json>, finish: Json, usage: Json)

  ghost predicate Stripped(calls: seq<Json>, raw: seq<Json>) {
    |calls| == |raw| && forall i :: 0 <= i < |raw| ==> raw[i].Obj? && calls[i] == WithoutIndex(raw[i])
  }

  /** `first = first or chunk`: an empty object does not count unless there is nothing else. */
  function First(chunks: seq<Json>): Json
    requires chunks != []
  {
    if |chunks| == 1 || Truthy(chunks[0]) then chunks[0] else First(chunks[1..])
  }

  /** What the assembled answer says about the choices seen so far. */
  ghost predicate Agrees(seen: seq<Json>, content: string, reasoning: string, calls: seq<Json>, finish: Json)
    requires AllOk(seen)
  {
    && content == Text(seen, "content") && reasoning == Text(seen, "reasoning")
    && Stripped(calls, Calls(seen)) && finish == Finish(seen)
  }

  lemma AgreesOnNothing()
    ensures Agrees([], "", "", [], Null)
  {
  }

  /** The pieces of one choice, added at the end. */
  method AddChoice(choice: Json, content: string, reasoning: string, calls: seq<Json>, finish: Json, ghost seen: seq<Json>)
      returns (content': string, reasoning': string, calls': seq<Json>, finish': Json)
    requires ChoiceOk(choice) && AllOk(seen) && Agrees(seen, content, reasoning, calls, finish)
    ensures AllOk(seen + [choice]) && Agrees(seen + [choice], content', reasoning', calls', finish')
  {
    assert (seen + [choice])[..|seen|] == seen;
    var delta := DeltaOf(choice);
    content', reasoning', calls' := content, reasoning, calls;
    if Truthy(Get(delta.fields, "content")) { content' := content + Get(delta.fields, "content").s; }
    if Truthy(Get(delta.fields, "reasoning")) { reasoning' := reasoning + Get(delta.fields, "reasoning").s; }
    var items := CallsOf(delta).items;
    for k := 0 to |items|
      invariant Stripped(calls', Calls(seen) + items[..k])
    {
      assert items[k] in items;
      calls' := calls' + [WithoutIndex(items[k])];
    }
    assert items[..|items|] == items;
    finish' := Or(Get(choice.fields, "finish_reason"), finish);
  }

  lemma {:induction false} OneMoreFirst(chunks: seq<Json>, chunk: Json)
    ensures First(chunks + [chunk]) ==
      if chunks != [] && Truthy(First(chunks)) then First(chunks) else chunk
  {
    if chunks != [] {
      assert (chunks + [chunk])[1..] == chunks[1..] + [chunk];
      OneMoreFirst(chunks[1..], chunk);
    }
  }

  /** `_collect`, once the chunks have come. */
  method Collect(chunks: seq<Json>) returns (a: Answer)
    requires AllWellFormed(chunks) && chunks != []
    ensures AllOk(Choices(chunks)) && Agrees(Choices(chunks), a.content, a.reasoning, a.calls, a.finish)
    ensures a.first == First(chunks) && a.usage == Usage(chunks)
  {
    hide Text, Calls, Finish, Agrees, ChoiceOk, UsageOk;
    ChoicesAreOk(chunks);
    AgreesOnNothing();
    var content, reasoning, calls, finish, usage := "", "", [], Null, Null;
    var first: Option<Json> := None;
    assert chunks[..0] == [];
    for i := 0 to |chunks|
      invariant if i == 0 then first.None? else first == Some(First(chunks[..i]))
      invariant AllWellFormed(chunks[..i]) && AllOk(Choices(chunks[..i]))
      invariant Agrees(Choices(chunks[..i]), content, reasoning, calls, finish)
      invariant usage == Usage(chunks[..i])
    {
      var chunk := chunks[i];
      assert chunk in chunks && WellFormed(chunk);
      assert chunks[..i + 1][..i] == chunks[..i];
      OneMoreFirst(chunks[..i], chunk);
      assert chunks[..i] + [chunk] == chunks[..i + 1];
      first := if first.Some? && Truthy(first.value) then first else Some(chunk);
      usage := Or(Get(chunk.fields, "usage"), usage);
      var choices := ChoicesOf(chunk).items;
      ghost var seen := Choices(chunks[..i]);
      assert seen + choices[..0] == seen;
      for j := 0 to |choices|
        invariant AllOk(seen + choices[..j])
        invariant Agrees(seen + choices[..j], content, reasoning, calls, finish)
      {
        assert choices[j] in choices;
        content, reasoning, calls, finish := AddChoice(choices[j], content, reasoning, calls, finish, seen + choices[..j]);
        assert seen + choices[..j] + [choices[j]] == seen + choices[..j + 1];
      }
      assert choices[..|choices|] == choices;
      assert seen + choices == Choices(chunks[..i + 1]);
    }
    assert chunks[..|chunks|] == chunks;
    a := Answer(first.value, content, reasoning, calls, finish, usage);
  }

  // --- the forwarded answer ---

  /** A choice as clients see it: the reasoning also under the name many of them read. */
  function PublicChoice(choice: Json): Json
    requires choice.Obj?
  {
    var delta := Get(choice.fields, "delta");
    if delta.Obj? && "reasoning" in delta.fields then
      Obj(choice.fields["delta" := Obj(delta.fields["reasoning_content" := delta.fields["reasoning"]])])
    else choice
  }

  predicate Objects(choices: seq<Json>) {
    forall c :: c in choices ==> c.Obj?
  }

  function PublicChoices(choices: seq<Json>): (r: seq<Json>)
    requires Objects(choices)
    ensures |r| == |choices| && forall i :: 0 <= i < |r| ==> r[i] == PublicChoice(choices[i])
  {
    seq(|choices|, i requires 0 <= i < |choices| => PublicChoice(choices[i]))
  }

  /** `public_chunk`: our model name, no server details. */
  function PublicChunk(chunk: Json, model: string): Json
    requires WellFormed(chunk)
  {
    var named := chunk.fields["model" := Str(model)]["object" := Str("chat.completion.chunk")] - {"system_fingerprint"};
    if Truthy(Get(chunk.fields, "choices"))
    then Obj(named["choices" := Arr(PublicChoices(ChoicesOf(chunk).items))])
    else Obj(named)
  }

  /** A chunk that only reports usage, which the client did not ask for. */
  predicate Filtered(chunk: Json, includeUsage: bool)
    requires chunk.Obj?
  {
    !Truthy(Get(chunk.fields, "choices")) && Truthy(Get(chunk.fields, "usage")) && !includeUsage
  }

  /** What `_stream` sends for the chunks. */
  function Forwarded(chunks: seq<Json>, model: string, includeUsage: bool): seq<Json>
    requires forall c :: c in chunks ==> WellFormed(c)
  {
    if chunks == [] then []
    else
      var n := |chunks| - 1;
      assert WellFormed(chunks[n]);
      Forwarded(chunks[..n], model, includeUsage)
      + if Filtered(chunks[n], includeUsage) then [] else [PublicChunk(chunks[n], model)]
  }

  lemma PublicChoiceIsOk(choice: Json)
    requires ChoiceOk(choice)
    ensures var p := PublicChoice(choice);
      && ChoiceOk(p) && CallsOf(DeltaOf(p)) == CallsOf(DeltaOf(choice))
      && Get(p.fields, "finish_reason") == Get(choice.fields, "finish_reason")
      && (forall key :: key != "reasoning_content" ==> TextIn(p, key) == TextIn(choice, key))
      && TextIn(p, "reasoning_content") ==
           TextIn(choice, if "reasoning" in DeltaOf(choice).fields then "reasoning" else "reasoning_content")
  {
  }

  lemma PublicChunkIsOk(chunk: Json, model: string)
    requires WellFormed(chunk)
    ensures var p := PublicChunk(chunk, model);
      && WellFormed(p)
      && ChoicesOf(p).items == PublicChoices(ChoicesOf(chunk).items)
      && Get(p.fields, "usage") == Get(chunk.fields, "usage")
      && p.fields["model"] == Str(model) && "system_fingerprint" !in p.fields
  {
    var p := PublicChunk(chunk, model);
    var choices := ChoicesOf(chunk).items;
    forall i | 0 <= i < |choices|
      ensures choices[i].Obj? && ChoiceOk(PublicChoice(choices[i]))
    {
      assert choices[i] in choices;
      PublicChoiceIsOk(choices[i]);
    }
    if Truthy(Get(chunk.fields, "choices")) {
      assert p.fields["choices"] == Arr(PublicChoices(choices));
      assert ChoicesOf(p) == Arr(PublicChoices(choices));
    }
  }

  // --- the two answers agree ---

  lemma FilteredHasNone(chunk: Json, includeUsage: bool)
    requires chunk.Obj? && Filtered(chunk, includeUsage)
    ensures ChoicesOf(chunk) == Arr([])
  {
  }

  /** The choices a client sees are the backend's, each made public; filtered chunks had none. */
  lemma {:induction false} ForwardedChoices(chunks: seq<Json>, model: string, includeUsage: bool)
    requires AllWellFormed(chunks)
    ensures AllWellFormed(Forwarded(chunks, model, includeUsage))
    ensures AllOk(Choices(chunks)) && Objects(Choices(chunks))
    ensures Choices(Forwarded(chunks, model, includeUsage)) == PublicChoices(Choices(chunks))
  {
    hide WellFormed, PublicChoice, ChoiceOk;
    ChoicesAreOk(chunks);
    if chunks != [] {
      hide Forwarded, Choices, PublicChoices, AllOk;
      var before, chunk := chunks[..|chunks| - 1], chunks[|chunks| - 1];
      assert chunks == before + [chunk];
      ForwardedChoices(before, model, includeUsage);
      OneMoreForwarded(before, chunk, model, includeUsage);
    }
  }

  lemma OkAreObjects(choices: seq<Json>)
    requires AllOk(choices)
    ensures Objects(choices)
  {
  }

  lemma PublicAppend(a: seq<Json>, b: seq<Json>)
    requires AllOk(a + b)
    ensures Objects(a) && Objects(b) && Objects(a + b)
    ensures PublicChoices(a + b) == PublicChoices(a) + PublicChoices(b)
  {
    hide PublicChoice;
    assert forall c :: c in a || c in b ==> c in a + b;
    OkAreObjects(a + b);
  }

  /** One chunk more adds its choices on both sides. */
  lemma OneMoreForwarded(before: seq<Json>, chunk: Json, model: string, includeUsage: bool)
    requires AllWellFormed(before) && WellFormed(chunk) && AllWellFormed(before + [chunk])
    requires AllOk(Choices(before)) && AllOk(Choices(before + [chunk]))
    requires AllWellFormed(Forwarded(before, model, includeUsage))
    requires Choices(Forwarded(before, model, includeUsage)) == PublicChoices(Choices(before))
    ensures AllWellFormed(Forwarded(before + [chunk], model, includeUsage))
    ensures Choices(Forwarded(before + [chunk], model, includeUsage)) == PublicChoices(Choices(before + [chunk]))
  {
    var items, more := ChoicesOf(chunk).items, before + [chunk];
    assert more[..|before|] == before;
    assert Choices(more) == Choices(before) + items;
    PublicAppend(Choices(before), items);
    hide PublicChoice, PublicChoices, ChoiceOk, UsageOk;
    var sent := Forwarded(before, model, includeUsage);
    if Filtered(chunk, includeUsage) {
      FilteredHasNone(chunk, includeUsage);
      assert Choices(more) == Choices(before);
      assert Forwarded(more, model, includeUsage) == sent;
    } else {
      PublicChunkIsOk(chunk, model);
      hide PublicChunk, WellFormed, ChoicesOf;
      var p := PublicChunk(chunk, model);
      assert (sent + [p])[..|sent|] == sent;
      assert Choices(sent + [p]) == Choices(sent) + ChoicesOf(p).items;
    }
  }

  /** What public choices say, field by field. */
  lemma {:induction false} PublicSaysTheSame(choices: seq<Json>)
    requires AllOk(choices)
    ensures AllOk(PublicChoices(choices))
    ensures forall key :: key != "reasoning_content" ==> Text(PublicChoices(choices), key) == Text(choices, key)
    ensures Calls(PublicChoices(choices)) == Calls(choices)
    ensures Finish(PublicChoices(choices)) == Finish(choices)
  {
    if choices != [] {
      var n := |choices| - 1;
      assert choices[n] in choices;
      PublicSaysTheSame(choices[..n]);
      PublicChoiceIsOk(choices[n]);
      assert PublicChoices(choices)[..n] == PublicChoices(choices[..n]);
    }
  }

  /** A delta with text of its own under "reasoning_content" and nothing under "reasoning". */
  predicate Stray(choice: Json)
    requires ChoiceOk(choice)
  {
    "reasoning" !in DeltaOf(choice).fields && TextIn(choice, "reasoning_content") != ""
  }

  /** A client that reads "reasoning_content" gets at least the assembled reasoning. */
  lemma {:induction false} PublicReasoning(choices: seq<Json>)
    requires AllOk(choices)
    ensures AllOk(PublicChoices(choices))
    ensures |Text(PublicChoices(choices), "reasoning_content")| >= |Text(choices, "reasoning")|
    ensures Text(PublicChoices(choices), "reasoning_content") == Text(choices, "reasoning")
      <==> forall c :: c in choices ==> !Stray(c)
  {
    if choices != [] {
      var n := |choices| - 1;
      var last, before := choices[n], choices[..n];
      assert choices == before + [last] && last in choices;
      PublicReasoning(before);
      PublicChoiceIsOk(last);
      assert PublicChoices(choices)[..n] == PublicChoices(before);
      var a, b := Text(PublicChoices(before), "reasoning_content"), Text(before, "reasoning");
      var x, y := TextIn(PublicChoice(last), "reasoning_content"), TextIn(last, "reasoning");
      assert Text(PublicChoices(choices), "reasoning_content") == a + x && Text(choices, "reasoning") == b + y;
      assert |x| >= |y| && (x == y <==> !Stray(last));
      if a + x == b + y {
        assert |a| == |b| && |x| == |y|;
        assert a == (a + x)[..|a|] == (b + y)[..|b|] == b;
        assert x == (a + x)[|a|..] == (b + y)[|b|..] == y;
      }
    }
  }

  /**
   * The streamed and the assembled answer agree on content, finish reason and tool calls, and
   * on the reasoning for a client that reads "reasoning".  For one that reads
   * "reasoning_content" they agree if and only if no delta has a "reasoning_content" of its
   * own without "reasoning", which `_collect` does not look at.
   */
  lemma AnswersAgree(chunks: seq<Json>, model: string, includeUsage: bool)
    requires AllWellFormed(chunks)
    ensures AllWellFormed(Forwarded(chunks, model, includeUsage))
    ensures var sent, own := Choices(Forwarded(chunks, model, includeUsage)), Choices(chunks);
      && AllOk(sent) && AllOk(own)
      && Text(sent, "content") == Text(own, "content")
      && Text(sent, "reasoning") == Text(own, "reasoning")
      && Calls(sent) == Calls(own)
      && Finish(sent) == Finish(own)
      && (Text(sent, "reasoning_content") == Text(own, "reasoning") <==> forall c :: c in own ==> !Stray(c))
  {
    hide ChoiceOk, WellFormed, Text, Calls, Finish, Choices, Forwarded, PublicChoices, Stray;
    ForwardedChoices(chunks, model, includeUsage);
    PublicSaysTheSame(Choices(chunks));
    PublicReasoning(Choices(chunks));
  }

  // --- a client that merges tool calls by index ---

  /** There is such a delta: streamed clients read "a" there, the assembled answer says nothing. */
  lemma StrayReasoningDisagrees(model: string, includeUsage: bool)
    ensures var chunk := Obj(map["choices" := Arr([Obj(map["delta" := Obj(map["reasoning_content" := Str("a")])])])]);
      && AllWellFormed([chunk]) && AllWellFormed(Forwarded([chunk], model, includeUsage))
      && AllOk(Choices([chunk])) && AllOk(Choices(Forwarded([chunk], model, includeUsage)))
      && Text(Choices([chunk]), "reasoning") == ""
      && Text(Choices(Forwarded([chunk], model, includeUsage)), "reasoning_content") != ""
  {
    var choice := Obj(map["delta" := Obj(map["reasoning_content" := Str("a")])]);
    var chunk := Obj(map["choices" := Arr([choice])]);
    assert ChoicesOf(chunk) == Arr([choice]);
    assert ChoiceOk(choice);
    assert [chunk][..0] == [] && Choices([chunk]) == [choice];
    assert [choice][..0] == [] && Text([choice], "reasoning") == "";
    AnswersAgree([chunk], model, includeUsage);
    assert Stray(choice) && choice in Choices([chunk]);
  }

  function IndexOf(call: Json): int
    requires call.Obj? && Get(call.fields, "index").Int?
  {
    call.fields["index"].n
  }

  ghost predicate Indexed(calls: seq<Json>) {
    forall c :: c in calls ==> c.Obj? && Get(c.fields, "index").Int?
  }

  /**
   * Puts a call into its slot, in index order; a second piece for a slot is combined with
   * what is there, in whatever way the client does that.
   */
  function PutCall(slots: seq<(int, Json)>, index: int, call: Json, combine: (Json, Json) -> Json): seq<(int, Json)> {
    if slots == [] then [(index, call)]
    else if slots[0].0 == index then [(index, combine(slots[0].1, call))] + slots[1..]
    else if slots[0].0 > index then [(index, call)] + slots
    else [slots[0]] + PutCall(slots[1..], index, call, combine)
  }

  function Merged(calls: seq<Json>, combine: (Json, Json) -> Json): seq<(int, Json)>
    requires forall c :: c in calls ==> c.Obj? && Get(c.fields, "index").Int?
  {
    if calls == [] then []
    else
      var n := |calls| - 1;
      assert calls[n] in calls;
      PutCall(Merged(calls[..n], combine), IndexOf(calls[n]), WithoutIndex(calls[n]), combine)
  }

  lemma {:induction false} PutLast(slots: seq<(int, Json)>, index: int, call: Json, combine: (Json, Json) -> Json)
    requires forall s :: s in slots ==> s.0 < index
    ensures PutCall(slots, index, call, combine) == slots + [(index, call)]
  {
    if slots != [] { PutLast(slots[1..], index, call, combine); }
  }

  /**
   * With distinct, increasing indices such a client ends up with the assembled tool calls,
   * one per index and in order, however it combines pieces.
   */
  lemma {:induction false} MergedCallsAgree(calls: seq<Json>, stripped: seq<Json>, combine: (Json, Json) -> Json)
    requires Indexed(calls) && Stripped(stripped, calls)
    requires forall i, j :: 0 <= i < j < |calls| ==> IndexOf(calls[i]) < IndexOf(calls[j])
    ensures var slots := Merged(calls, combine);
      |slots| == |calls| && forall i :: 0 <= i < |calls| ==> slots[i] == (IndexOf(calls[i]), stripped[i])
  {
    hide PutCall, WithoutIndex;
    if calls != [] {
      var n := |calls| - 1;
      assert Stripped(stripped[..n], calls[..n]);
      MergedCallsAgree(calls[..n], stripped[..n], combine);
      assert forall i :: 0 <= i < n ==> calls[..n][i] == calls[i];
      PutLast(Merged(calls[..n], combine), IndexOf(calls[n]), WithoutIndex(calls[n]), combine);
    }
  }
}
