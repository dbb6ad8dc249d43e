/**
 * What an assembled or a forwarded answer contains, piece by piece: everything that was sent, in
 * the order in which it was sent, and where only one value counts, the one at the right place.
 */
module Assembly {
  import opened Wrappers
  import opened Json
  import opened Chunks
  import BackendStream

  /** A field of an object; other values have none. */
  function FieldOf(j: Json, key: string): Json {
    if j.Obj? then Get(j.fields, key) else Null
  }

  // --- texts and calls, in order ---

  /** What one choice says under a key of its delta. */
  function Piece(choice: Json, key: string): string {
    var text := FieldOf(FieldOf(choice, "delta"), key);
    if text.Str? then text.s else ""
  }

  /** The calls in the delta of one choice. */
  function RawCalls(choice: Json): seq<Json> {
    var calls := FieldOf(FieldOf(choice, "delta"), "tool_calls");
    if calls.Arr? then calls.items else []
  }

  lemma TextOne(choice: Json, key: string)
    requires ChoiceOk(choice)
    ensures AllOk([choice]) && Chunks.Text([choice], key) == Piece(choice, key)
  {
    assert [choice][..0] == [];
    assert Chunks.Text([choice], key) == "" + TextIn(choice, key);
  }

  lemma {:induction false} TextAppend(a: seq<Json>, b: seq<Json>, key: string)
    requires AllOk(a) && AllOk(b)
    ensures AllOk(a + b) && Chunks.Text(a + b, key) == Chunks.Text(a, key) + Chunks.Text(b, key)
  {
    hide ChoiceOk, TextIn;
    if b == [] {
      assert a + b == a;
    } else {
      var before := b[..|b| - 1];
      assert (a + b)[..|a + b| - 1] == a + before;
      TextAppend(a, before, key);
    }
  }

  lemma {:induction false} CallsAppend(a: seq<Json>, b: seq<Json>)
    requires AllOk(a) && AllOk(b)
    ensures AllOk(a + b) && Calls(a + b) == Calls(a) + Calls(b)
  {
    hide ChoiceOk, CallsOf, DeltaOf;
    if b == [] {
      assert a + b == a;
    } else {
      var before := b[..|b| - 1];
      assert (a + b)[..|a + b| - 1] == a + before;
      CallsAppend(a, before);
    }
  }

  lemma {:induction false} FinishAppend(a: seq<Json>, b: seq<Json>)
    requires AllOk(a) && AllOk(b)
    ensures AllOk(a + b) && Finish(a + b) == Or(Finish(b), Finish(a))
  {
    hide ChoiceOk;
    if b == [] {
      assert a + b == a;
    } else {
      var before := b[..|b| - 1];
      assert (a + b)[..|a + b| - 1] == a + before;
      FinishAppend(a, before);
    }
  }

  lemma {:induction false} ChoicesAppend(a: seq<Json>, b: seq<Json>)
    requires AllWellFormed(a) && AllWellFormed(b)
    ensures AllWellFormed(a + b) && Choices(a + b) == Choices(a) + Choices(b)
  {
    hide WellFormed, ChoicesOf;
    if b == [] {
      assert a + b == a;
    } else {
      var before := b[..|b| - 1];
      assert (a + b)[..|a + b| - 1] == a + before;
      ChoicesAppend(a, before);
    }
  }

  lemma {:induction false} UsageAppend(a: seq<Json>, b: seq<Json>)
    requires AllWellFormed(a) && AllWellFormed(b)
    ensures AllWellFormed(a + b) && Usage(a + b) == Or(Usage(b), Usage(a))
  {
    hide WellFormed;
    if b == [] {
      assert a + b == a;
    } else {
      var before := b[..|b| - 1];
      assert (a + b)[..|a + b| - 1] == a + before;
      UsageAppend(a, before);
    }
  }

  lemma {:induction false} FirstAppend(a: seq<Json>, b: seq<Json>)
    requires a != [] && b != []
    ensures First(a + b) == if Truthy(First(a)) then First(a) else First(b)
  {
    if |a| == 1 {
      assert (a + b)[1..] == b;
    } else {
      assert (a + b)[1..] == a[1..] + b;
      FirstAppend(a[1..], b);
    }
  }

  /**
   * The answer to two lists of chunks, one after the other: all texts and calls of the first, then
   * those of the second; the last finish reason and usage that say something; the first chunk
   * that is not empty.
   */
  lemma AssembledInOrder(a: seq<Json>, b: seq<Json>, x: Answer, y: Answer, z: Answer)
    requires AllWellFormed(a) && AllWellFormed(b) && AllWellFormed(a + b) && a != [] && b != []
    requires BackendStream.Answers(a, x) && BackendStream.Answers(b, y) && BackendStream.Answers(a + b, z)
    ensures z.content == x.content + y.content && z.reasoning == x.reasoning + y.reasoning
    ensures z.calls == x.calls + y.calls
    ensures z.finish == Or(y.finish, x.finish) && z.usage == Or(y.usage, x.usage)
    ensures z.first == if Truthy(x.first) then x.first else y.first
  {
    hide WellFormed, ChoiceOk, Choices, Chunks.Text, Calls, Finish, Usage, First, WithoutIndex;
    ChoicesAppend(a, b);
    var p, q := Choices(a), Choices(b);
    TextAppend(p, q, "content");
    TextAppend(p, q, "reasoning");
    CallsAppend(p, q);
    FinishAppend(p, q);
    UsageAppend(a, b);
    FirstAppend(a, b);
  }

  /** The answer to one chunk with one choice is what that choice says; its calls lose their index. */
  lemma AssembledFromOne(chunk: Json, choice: Json, x: Answer)
    requires WellFormed(chunk) && FieldOf(chunk, "choices") == Arr([choice])
    requires AllWellFormed([chunk]) && BackendStream.Answers([chunk], x)
    ensures x.first == chunk && x.content == Piece(choice, "content") && x.reasoning == Piece(choice, "reasoning")
    ensures |x.calls| == |RawCalls(choice)|
    ensures forall i, key :: 0 <= i < |x.calls| ==>
      FieldOf(x.calls[i], key) == if key == "index" then Null else FieldOf(RawCalls(choice)[i], key)
    ensures x.finish == Or(FieldOf(choice, "finish_reason"), Null) && x.usage == Or(FieldOf(chunk, "usage"), Null)
  {
    assert ChoicesOf(chunk) == Arr([choice]);
    OneChoice(chunk, choice);
    TextOne(choice, "content");
    TextOne(choice, "reasoning");
    CallsOne(choice);
    assert Usage([chunk]) == Or(FieldOf(chunk, "usage"), Null) by { assert [chunk][..0] == []; }
    assert CallsOf(DeltaOf(choice)).items == RawCalls(choice);
    forall i, key | 0 <= i < |x.calls|
      ensures FieldOf(x.calls[i], key) == if key == "index" then Null else FieldOf(RawCalls(choice)[i], key)
    {
      assert x.calls[i] == WithoutIndex(RawCalls(choice)[i]);
    }
  }

  lemma OneChoice(chunk: Json, choice: Json)
    requires WellFormed(chunk) && ChoicesOf(chunk) == Arr([choice])
    ensures AllWellFormed([chunk]) && Choices([chunk]) == [choice] && ChoiceOk(choice)
  {
    assert choice in ChoicesOf(chunk).items;
    assert [chunk][..0] == [];
  }

  lemma CallsOne(choice: Json)
    requires ChoiceOk(choice)
    ensures AllOk([choice]) && Calls([choice]) == CallsOf(DeltaOf(choice)).items
    ensures Finish([choice]) == Or(Get(choice.fields, "finish_reason"), Null)
  {
    assert [choice][..0] == [];
  }

  // --- values of which one counts ---

  /** The finish reason is that of the last choice that gives one. */
  lemma {:induction false} FinishByPosition(choices: seq<Json>, i: nat)
    requires AllOk(choices) && i < |choices| && Truthy(FieldOf(choices[i], "finish_reason"))
    requires forall j :: i < j < |choices| ==> !Truthy(FieldOf(choices[j], "finish_reason"))
    ensures Finish(choices) == FieldOf(choices[i], "finish_reason")
  {
    assert choices[|choices| - 1] in choices;
    if i < |choices| - 1 { FinishByPosition(choices[..|choices| - 1], i); }
  }

  lemma {:induction false} NoFinish(choices: seq<Json>)
    requires AllOk(choices) && forall c | c in choices :: !Truthy(FieldOf(c, "finish_reason"))
    ensures Finish(choices) == Null
  {
    if choices != [] {
      assert choices[|choices| - 1] in choices;
      NoFinish(choices[..|choices| - 1]);
    }
  }

  /** The usage is that of the last chunk that gives one. */
  lemma {:induction false} UsageByPosition(chunks: seq<Json>, i: nat)
    requires AllWellFormed(chunks) && i < |chunks| && Truthy(FieldOf(chunks[i], "usage"))
    requires forall j :: i < j < |chunks| ==> !Truthy(FieldOf(chunks[j], "usage"))
    ensures Usage(chunks) == FieldOf(chunks[i], "usage")
  {
    hide UsageOk, ChoiceOk;
    assert chunks[|chunks| - 1] in chunks;
    if i < |chunks| - 1 { UsageByPosition(chunks[..|chunks| - 1], i); }
  }

  lemma {:induction false} NoUsage(chunks: seq<Json>)
    requires AllWellFormed(chunks) && forall c | c in chunks :: !Truthy(FieldOf(c, "usage"))
    ensures Usage(chunks) == Null
  {
    hide UsageOk, ChoiceOk;
    if chunks != [] {
      assert chunks[|chunks| - 1] in chunks;
      NoUsage(chunks[..|chunks| - 1]);
    }
  }

  // --- what is forwarded ---

  lemma {:induction false} ForwardedAppend(a: seq<Json>, b: seq<Json>, model: string, includeUsage: bool)
    requires AllWellFormed(a) && AllWellFormed(b)
    ensures AllWellFormed(a + b)
    ensures Forwarded(a + b, model, includeUsage) == Forwarded(a, model, includeUsage) + Forwarded(b, model, includeUsage)
  {
    hide WellFormed, Filtered, PublicChunk;
    if b == [] {
      assert a + b == a;
    } else {
      var before := b[..|b| - 1];
      assert (a + b)[..|a + b| - 1] == a + before;
      ForwardedAppend(a, before, model, includeUsage);
    }
  }

  /**
   * A chunk is held back only if it has no choices and reports usage that the client did not ask
   * for; every other one is forwarded, made public.
   */
  lemma ForwardedOne(chunk: Json, model: string, includeUsage: bool)
    requires WellFormed(chunk)
    ensures AllWellFormed([chunk])
    ensures var choices, usage := Get(chunk.fields, "choices"), Get(chunk.fields, "usage");
      Forwarded([chunk], model, includeUsage) ==
      if !Truthy(choices) && Truthy(usage) && !includeUsage then [] else [PublicChunk(chunk, model)]
  {
    assert [chunk][..0] == [];
  }

  /** A client that asked for usage gets every chunk, and with them the usage of the assembled answer. */
  lemma {:induction false} WantedUsageIsForwarded(chunks: seq<Json>, model: string)
    requires AllWellFormed(chunks)
    ensures var sent := Forwarded(chunks, model, true);
      && |sent| == |chunks| && (forall i :: 0 <= i < |chunks| ==> sent[i] == PublicChunk(chunks[i], model))
      && AllWellFormed(sent) && Usage(sent) == Usage(chunks)
  {
    hide WellFormed, PublicChunk;
    if chunks != [] {
      var before, last := chunks[..|chunks| - 1], chunks[|chunks| - 1];
      WantedUsageIsForwarded(before, model);
      PublicChunkIsOk(last, model);
      var sent, earlier := Forwarded(chunks, model, true), Forwarded(before, model, true);
      assert sent == earlier + [PublicChunk(last, model)];
      assert sent[..|sent| - 1] == earlier;
      PublicIsAnObject(last, model);
    }
  }

  lemma PublicIsAnObject(chunk: Json, model: string)
    requires WellFormed(chunk)
    ensures PublicChunk(chunk, model).Obj?
  {
  }

  /** Making a chunk public changes four of its fields and no other. */
  lemma PublicKeepsTheRest(chunk: Json, model: string, key: string)
    requires WellFormed(chunk)
    ensures var p := PublicChunk(chunk, model).fields;
      && Get(p, "model") == Str(model) && Get(p, "object") == Str("chat.completion.chunk")
      && "system_fingerprint" !in p
      && (key !in {"model", "object", "system_fingerprint", "choices"} ==> Get(p, key) == Get(chunk.fields, key))
      && (!Truthy(Get(chunk.fields, "choices")) ==> Get(p, "choices") == Get(chunk.fields, "choices"))
  {
    hide UsageOk, ChoiceOk;
  }

  /** Of a choice it changes one field of the delta. */
  lemma PublicChoiceKeepsTheRest(choice: Json, key: string)
    requires ChoiceOk(choice)
    ensures var p := PublicChoice(choice);
      && (key != "delta" ==> FieldOf(p, key) == FieldOf(choice, key))
      && (key != "reasoning_content" ==> FieldOf(FieldOf(p, "delta"), key) == FieldOf(FieldOf(choice, "delta"), key))
      && (FieldOf(choice, "delta").Obj? && "reasoning" in FieldOf(choice, "delta").fields ==>
            FieldOf(FieldOf(p, "delta"), "reasoning_content") == FieldOf(FieldOf(choice, "delta"), "reasoning"))
  {
  }

  // --- what is well formed ---

  /** Chunks of the shape that the backend sends are accepted, whatever they say. */
  lemma TypicalChunkIsWellFormed(content: string, reasoning: string, calls: seq<Json>, finish: Json, counts: (int, int), rest: Fields)
    requires forall c | c in calls :: c.Obj?
    requires !("usage" in rest) && !("choices" in rest)
    ensures var delta := Obj(map["content" := Str(content), "reasoning" := Str(reasoning), "tool_calls" := Arr(calls)]);
      var choice := Obj(map["delta" := delta, "finish_reason" := finish]);
      var usage := Obj(map["prompt_tokens" := Int(counts.0), "completion_tokens" := Int(counts.1)]);
      && WellFormed(Obj(rest["choices" := Arr([choice])]))
      && WellFormed(Obj(rest["choices" := Arr([])]["usage" := usage])) && WellFormed(Obj(rest))
  {
    var delta := Obj(map["content" := Str(content), "reasoning" := Str(reasoning), "tool_calls" := Arr(calls)]);
    var choice := Obj(map["delta" := delta, "finish_reason" := finish]);
    assert DeltaOf(choice) == delta;
    assert CallsOf(delta).Arr? && CallsOf(delta).items == calls;
    assert ChoiceOk(choice);
    var usage := Obj(map["prompt_tokens" := Int(counts.0), "completion_tokens" := Int(counts.1)]);
    assert UsageOk(usage) && UsageOk(Null);
    var one, two := Obj(rest["choices" := Arr([choice])]), Obj(rest["choices" := Arr([])]["usage" := usage]);
    assert ChoicesOf(one) == Arr([choice]) && ChoicesOf(two) == Arr([]) && ChoicesOf(Obj(rest)) == Arr([]);
  }
}
