/** The messages as the chat template gets them, when the gateway counts tokens. */
module Tokens {
  import opened Wrappers
  import opened Json
  import opened Translate

  /** `"".join(part["text"] for part in content)`; None where it raises. */
  function Joined(parts: seq<Json>): Option<string> {
    if parts == [] then Some("")
    else
      var last := parts[|parts| - 1];
      match Joined(parts[..|parts| - 1]) {
        case None => None
        case Some(s) => if last.Obj? && Get(last.fields, "text").Str? then Some(s + last.fields["text"].s) else None
      }
  }

  /** A tool call with its arguments decoded; None where `json.loads` raises. */
  function DecodedCall(call: Json, decode: Decoder): Option<Json> {
    var f := FunctionOf(call);
    if !f.Obj? || !Truthy(Get(f.fields, "arguments")) then Some(call)
    else
      var arguments := Get(f.fields, "arguments");
      if !arguments.Str? || !decode(arguments.s).Decoded? then None
      else
        var function' := Obj(f.fields["arguments" := decode(arguments.s).value]);
        Some(Obj(call.fields["function" := function']))
  }

  function DecodedAll(calls: seq<Json>, decode: Decoder): (r: Option<seq<Json>>)
    ensures r.Some? <==> forall call | call in calls :: DecodedCall(call, decode).Some?
    ensures r.Some? ==> |r.value| == |calls|
    ensures r.Some? ==> forall i :: 0 <= i < |calls| ==> DecodedCall(calls[i], decode) == Some(r.value[i])
  {
    if calls == [] then Some([])
    else
      var last := calls[|calls| - 1];
      match DecodedAll(calls[..|calls| - 1], decode) {
        case None => None
        case Some(done) => match DecodedCall(last, decode) {
          case None => None
          case Some(call) => Some(done + [call])
        }
      }
  }

  function WithContent(m: Fields): Option<Fields> {
    match Get(m, "content")
    case Null => Some(m["content" := Str("")])
    case Arr(parts) => (match Joined(parts) { case None => None case Some(s) => Some(m["content" := Str(s)]) })
    case _ => Some(m)
  }

  /** Strings and objects can be iterated but hold no call; other values that count as true raise. */
  function WithCalls(m: Fields, decode: Decoder): Option<Fields> {
    var calls := Get(m, "tool_calls");
    if !Truthy(calls) || calls.Str? || calls.Obj? then Some(m)
    else if !calls.Arr? then None
    else match DecodedAll(calls.items, decode) {
      case None => None
      case Some(done) => Some(m["tool_calls" := Arr(done)])
    }
  }

  function Normalized(m: Fields, decode: Decoder): Option<Fields> {
    match WithContent(m)
    case None => None
    case Some(m') => WithCalls(m', decode)
  }

  /** `normalize_messages`; None where it raises. */
  method NormalizeMessages(messages: seq<Fields>, decode: Decoder) returns (r: Option<seq<Fields>>)
    ensures r.Some? <==> forall m | m in messages :: Normalized(m, decode).Some?
    ensures r.Some? ==> |r.value| == |messages|
    ensures r.Some? ==> forall i :: 0 <= i < |messages| ==> Normalized(messages[i], decode) == Some(r.value[i])
  {
    hide Normalized;
    var result := [];
    for i := 0 to |messages|
      invariant |result| == i
      invariant forall k :: 0 <= k < i ==> Normalized(messages[k], decode) == Some(result[k])
    {
      var message := NormalizeMessage(messages[i], decode);
      if message.None? {
        assert messages[i] in messages;
        return None;
      }
      result := result + [message.value];
    }
    r := Some(result);
  }

  method NormalizeMessage(m: Fields, decode: Decoder) returns (r: Option<Fields>)
    ensures r == Normalized(m, decode)
  {
    hide DecodedCall, Joined;
    var message := m;
    var content := Get(m, "content");
    if content.Arr? {
      var text := Joined(content.items);
      if text.None? { return None; }
      message := message["content" := Str(text.value)];
    } else if content.Null? {
      message := message["content" := Str("")];
    }
    var calls := Get(message, "tool_calls");
    if !Truthy(calls) || calls.Str? || calls.Obj? { return Some(message); }
    if !calls.Arr? { return None; }
    var items, done := calls.items, [];
    for i := 0 to |items|
      invariant DecodedAll(items[..i], decode) == Some(done)
    {
      assert items[..i + 1][..i] == items[..i];
      var call := DecodedCall(items[i], decode);
      if call.None? {
        assert items[i] in items;
        return None;
      }
      done := done + [call.value];
    }
    assert items[..|items|] == items;
    r := Some(message["tool_calls" := Arr(done)]);
  }

  /** The text of a content: what is said, whatever its form. */
  function TextOf(content: Json): string
    requires GoodContent(content)
  {
    match content
    case Str(s) => s
    case Arr(parts) => if Joined(parts).Some? then Joined(parts).value else ""
    case _ => ""
  }

  lemma {:induction false} JoinedAppend(a: seq<Json>, b: seq<Json>)
    ensures Joined(a + b) ==
      if Joined(a).Some? && Joined(b).Some? then Some(Joined(a).value + Joined(b).value) else None
  {
    if b == [] {
      assert a + b == a;
      if Joined(a).Some? { assert Joined(a).value + "" == Joined(a).value; }
    } else {
      var before := b[..|b| - 1];
      assert (a + b)[..|a + b| - 1] == a + before;
      JoinedAppend(a, before);
      if Joined(a).Some? && Joined(b).Some? {
        var x, y, z := Joined(a).value, Joined(before).value, b[|b| - 1].fields["text"].s;
        assert x + y + z == x + (y + z);
      }
    }
  }

  /** A string is its own text; a list has the texts of its parts, one after the other; nothing has none. */
  lemma TextsInOrder(s: string, part: Json, a: seq<Json>, b: seq<Json>)
    requires TextPart(part) && forall p | p in a + b :: TextPart(p)
    ensures GoodContent(Arr(a)) && GoodContent(Arr(b)) && GoodContent(Arr([part]))
    ensures TextOf(Str(s)) == s && TextOf(Null) == "" && TextOf(Arr([])) == ""
    ensures TextOf(Arr([part])) == Get(part.fields, "text").s
    ensures TextOf(Arr(a + b)) == TextOf(Arr(a)) + TextOf(Arr(b))
  {
    assert forall p :: p in a || p in b <==> p in a + b;
    TextPartsJoin(a);
    TextPartsJoin(b);
    JoinedAppend(a, b);
    assert [part][..0] == [] && Joined([part]) == Some("" + Get(part.fields, "text").s);
  }

  lemma {:induction false} TextPartsJoin(parts: seq<Json>)
    requires forall part | part in parts :: TextPart(part)
    ensures Joined(parts).Some?
  {
    if parts != [] {
      var last := parts[|parts| - 1];
      assert last in parts && TextPart(last);
      TextPartsJoin(parts[..|parts| - 1]);
    }
  }

  lemma GoodCallsDecode(calls: seq<Json>, decode: Decoder)
    requires forall call | call in calls :: GoodCall(call, decode)
    ensures DecodedAll(calls, decode).Some?
  {
    forall call | call in calls ensures DecodedCall(call, decode).Some? {
      assert GoodCall(call, decode);
    }
  }

  /**
   * Normalising never raises on a message that was accepted. Its content becomes a string with
   * the same text, its calls keep their number and get their arguments decoded, and its role and
   * every other field stay.
   */
  lemma AcceptedIsNormalized(message: Json, i: nat, decode: Decoder)
    requires MessageFault(message, i, decode).None?
    ensures var m := Renamed(message);
      var r := Normalized(m, decode);
      && r.Some?
      && Get(r.value, "role").Str? && Get(r.value, "role").s in {"system", "user", "assistant", "tool"}
      && (var role := Get(message.fields, "role");
          Get(r.value, "role") == if role == Str("developer") then Str("system") else role)
      && Get(r.value, "content") == Str(TextOf(Get(message.fields, "content")))
      && (forall key | key !in {"content", "tool_calls", "role"} :: Get(r.value, key) == Get(message.fields, key))
      && Get(r.value, "tool_calls") == DecodedCalls(Get(message.fields, "tool_calls"), decode)
  {
    hide DecodedAll, Joined, GoodCall, DecodedCall;
    var m := Renamed(message);
    RenamedKeeps(message, i, decode);
    var content, calls := Get(m, "content"), Get(m, "tool_calls");
    if content.Arr? { TextPartsJoin(content.items); }
    if calls.Arr? { GoodCallsDecode(calls.items, decode); }
  }

  /** The calls of an accepted message with all arguments decoded. */
  function DecodedCalls(calls: Json, decode: Decoder): Json {
    if calls.Arr? && calls.items != [] && DecodedAll(calls.items, decode).Some? then
      Arr(DecodedAll(calls.items, decode).value)
    else calls
  }

  lemma RenamedKeeps(message: Json, i: nat, decode: Decoder)
    requires MessageFault(message, i, decode).None?
    ensures var m := Renamed(message);
      && Get(m, "role").Str? && Get(m, "role").s in {"system", "user", "assistant", "tool"}
      && GoodContent(Get(message.fields, "content")) && GoodCalls(Get(message.fields, "tool_calls"), decode)
      && forall key | key != "role" :: Get(m, key) == Get(message.fields, key)
  {
    CallsAreGood(Get(message.fields, "tool_calls"), Where(i), decode);
    hide GoodContent, GoodCalls, CallsFault, Where;
    var role := Get(message.fields, "role").s;
    assert role in MESSAGE_ROLES;
  }

  /** Decoding a call replaces the arguments and nothing else. */
  lemma DecodingReplacesArguments(call: Json, decode: Decoder)
    requires GoodCall(call, decode)
    ensures var r := DecodedCall(call, decode);
      var before := FunctionOf(call).fields;
      && r.Some? && FunctionOf(r.value).Obj?
      && var after := FunctionOf(r.value).fields;
        && (forall key | key != "arguments" :: Get(after, key) == Get(before, key))
        && (Truthy(Get(before, "arguments")) ==> Decoding.Decoded(Get(after, "arguments")) == decode(Get(before, "arguments").s))
        && (!Truthy(Get(before, "arguments")) ==> r.value == call)
        && forall key | key != "function" :: Get(r.value.fields, key) == Get(call.fields, key)
  {
  }

  /** Counting never fails on messages that `prepare` let through. */
  lemma PreparedIsNormalized(prepared: Prepared, body: Json, rules: Rules, decode: Decoder)
    requires IsPrepared(prepared, body, rules, decode)
    ensures forall m | m in prepared.messages :: Normalized(m, decode).Some?
  {
    hide MessageFault, Renamed, SentBody, Normalized;
    var items := Get(body.fields, "messages").items;
    forall m | m in prepared.messages ensures Normalized(m, decode).Some? {
      var i :| 0 <= i < |prepared.messages| && prepared.messages[i] == m;
      AcceptedIsNormalized(items[i], i, decode);
    }
  }
}
