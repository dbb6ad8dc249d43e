/**
 * Chat requests in the words of the API: for every field what is accepted, which field is blamed,
 * and what the backend gets for it.
 */
module Requests {
  import opened Wrappers
  import opened Json
  import opened Translate
  import Config
  import Crashes
  import Order

  // ---- What is accepted ----

  predicate AText(part: Json) {
    part.Obj? && Get(part.fields, "type") == Str("text") && Get(part.fields, "text").Str?
  }

  predicate Contents(j: Json) {
    j.Null? || j.Str? || (j.Arr? && forall part | part in j.items :: AText(part))
  }

  /** A call of a named function, with arguments that are JSON text or left out. */
  predicate ACall(call: Json, decode: Decoder) {
    && call.Obj?
    && var f := Get(call.fields, "function");
      && f.Obj? && Get(f.fields, "name").Str?
      && var arguments := Get(f.fields, "arguments");
         arguments.Null? || arguments == Str("") || (arguments.Str? && decode(arguments.s).Decoded?)
  }

  predicate CallList(j: Json, decode: Decoder) {
    j.Null? || (j.Arr? && forall call | call in j.items :: ACall(call, decode))
  }

  predicate AMessage(m: Json, decode: Decoder) {
    && m.Obj?
    && (var role := Get(m.fields, "role");
        role == Str("system") || role == Str("developer") || role == Str("user") || role == Str("assistant") || role == Str("tool"))
    && Contents(Get(m.fields, "content")) && CallList(Get(m.fields, "tool_calls"), decode)
  }

  predicate ATool(tool: Json) {
    && tool.Obj? && (Get(tool.fields, "type") == Str("function") || "type" !in tool.fields)
    && var f := Get(tool.fields, "function");
       f.Obj? && Get(f.fields, "name").Str?
  }

  predicate Between(j: Json, low: real, high: real) {
    j.Null? || (j.Int? && low <= j.n as real <= high) || (j.Float? && low <= j.x <= high)
  }

  predicate Word(j: Json) {
    j.Str? && j.s != ""
  }

  /** A token id with a number that can be looked at as a float. */
  predicate AnEntry(key: string, value: Json) {
    && key != "" && (forall c | c in key :: '0' <= c <= '9')
    && (value.Float? || (value.Int? && !Overflows(value.n)))
  }

  /** The field that counts as the wanted number of tokens. */
  function TokensField(b: Fields): string {
    if Get(b, "max_completion_tokens").Null? then "max_tokens" else "max_completion_tokens"
  }

  const CHECKS := [
    "model", "messages", "tools", "stream", "stream_options", "n", "temperature", "top_p", "min_p",
    "presence_penalty", "frequency_penalty", "repetition_penalty", "top_k", "seed", "stop", "logit_bias",
    "max_tokens", "reasoning_effort"]

  /** What each field has to be. */
  predicate Good(field: string, b: Fields, rules: Rules, decode: Decoder) {
    var j := Get(b, field);
    match field
    case "model" => j.Null? || j == Str(rules.modelName)
    case "messages" => j.Arr? && j.items != [] && forall m | m in j.items :: AMessage(m, decode)
    case "tools" => j.Null? || (j.Arr? && forall tool | tool in j.items :: ATool(tool))
    case "stream" => j.Null? || j.Bool?
    case "stream_options" => j.Null? || j.Obj?
    case "n" => j == Null || j == Int(1) || j == Float(1.0) || j == Bool(true)
    case "temperature" => Between(j, 0.0, 2.0)
    case "top_p" => Between(j, 0.0, 1.0)
    case "min_p" => Between(j, 0.0, 1.0)
    case "presence_penalty" => Between(j, -2.0, 2.0)
    case "frequency_penalty" => Between(j, -2.0, 2.0)
    case "repetition_penalty" => Between(j, 0.0, 10.0)
    case "top_k" => j.Null? || (j.Int? && j.n >= 0)
    case "seed" => j.Null? || j.Int?
    case "stop" => j.Null? || Word(j) || (j.Arr? && forall s | s in j.items :: Word(s))
    case "logit_bias" => j.Null? || (j.Obj? && forall key | key in j.fields :: AnEntry(key, j.fields[key]))
    case "max_tokens" => (var t := Get(b, TokensField(b)); t.Null? || (t.Int? && t.n >= 1))
    case "reasoning_effort" => j.Null? || (j.Str? && j.s in {"none", "minimal", "low", "medium", "high", "xhigh"})
    case _ => true
  }

  /** What a client is told about a field. */
  predicate Blames(e: Error, field: string, b: Fields) {
    match field
    case "model" => e == Api(404, Some("model_not_found"), Some("model"))
    case "messages" => e == Crash || (e.Api? && e.status == 400 && e.code == Some("invalid_value") && e.param.Some? && "messages" <= e.param.value)
    case "max_tokens" => e == Api(400, Some("invalid_value"), Some(TokensField(b)))
    case _ => e == Api(400, Some("invalid_value"), Some(field)) || (e == Crash && field in CRASHING)
  }

  /** The fields whose numbers may be too large to be looked at. */
  const CRASHING := {
    "temperature", "top_p", "min_p", "presence_penalty", "frequency_penalty", "repetition_penalty", "logit_bias"}

  // ---- Field by field ----

  function FieldFault(field: string, b: Fields, rules: Rules, decode: Decoder, order: Listing): Option<Error> {
    match field
    case "model" => ModelFault(b, rules)
    case "messages" => MessagesFault(Get(b, "messages"), decode)
    case "tools" => ToolsFault(Get(b, "tools"))
    case "stream" => StreamFault(b)
    case "stream_options" => OptionsFault(b)
    case "n" => CountFault(b)
    case "temperature" => NumberFault(b, NumberField("temperature", 0.0, 2.0))
    case "top_p" => NumberFault(b, NumberField("top_p", 0.0, 1.0))
    case "min_p" => NumberFault(b, NumberField("min_p", 0.0, 1.0))
    case "presence_penalty" => NumberFault(b, NumberField("presence_penalty", -2.0, 2.0))
    case "frequency_penalty" => NumberFault(b, NumberField("frequency_penalty", -2.0, 2.0))
    case "repetition_penalty" => NumberFault(b, NumberField("repetition_penalty", 0.0, 10.0))
    case "top_k" => TopKFault(b)
    case "seed" => SeedFault(b)
    case "stop" => StopFault(b)
    case "logit_bias" => BiasFault(b, order)
    case "max_tokens" => TokensFault(b)
    case "reasoning_effort" => EffortFault(b, rules)
    case _ => None
  }

  lemma SmallNumbersFit(j: Json, low: real, high: real)
    requires -10.0 <= low && high <= 10.0 && j.Int? && low <= j.n as real <= high
    ensures !Overflows(j.n)
  {
    assert -10 <= j.n <= 10;
  }

  lemma NumberChecked(b: Fields, name: string, low: real, high: real)
    requires -10.0 <= low && high <= 10.0
    ensures var fault := NumberFault(b, NumberField(name, low, high));
      && (fault.None? <==> Between(Get(b, name), low, high))
      && (fault.Some? ==> fault.value in {Crash, Bad(name)})
  {
    var j := Get(b, name);
    if j.Int? && low <= j.n as real <= high { SmallNumbersFit(j, low, high); }
    hide Overflows;
  }

  lemma MessageChecked(m: Json, i: nat, decode: Decoder)
    ensures MessageFault(m, i, decode).None? <==> AMessage(m, decode)
    ensures var fault := MessageFault(m, i, decode);
      fault.Some? ==> Blames(fault.value, "messages", map[])
  {
    if m.Obj? {
      var calls := Get(m.fields, "tool_calls");
      CallsAreGood(calls, Where(i), decode);
      CallsBlamed(calls, Where(i), decode);
      assert Where(i)[..8] == "messages";
      assert forall call :: GoodCall(call, decode) <==> ACall(call, decode);
      assert forall part :: TextPart(part) <==> AText(part);
      hide GoodCall, TextPart, CallsFault, Where;
    }
  }

  lemma {:induction false} CallsBlamedFrom(items: seq<Json>, j: nat, where: string, decode: Decoder)
    requires j <= |items|
    ensures var fault := CallsFaultFrom(items, j, where, decode); fault.Some? ==> fault.value in {Crash, Bad(where + ".tool_calls")}
    decreases |items| - j
  {
    if j < |items| { CallsBlamedFrom(items, j + 1, where, decode); }
  }

  lemma CallsBlamed(calls: Json, where: string, decode: Decoder)
    ensures var fault := CallsFault(calls, where, decode); fault.Some? ==> fault.value in {Crash, Bad(where + ".tool_calls")}
  {
    if calls.Arr? { CallsBlamedFrom(calls.items, 0, where, decode); }
  }

  lemma {:induction false} MessagesCheckedFrom(items: seq<Json>, i: nat, decode: Decoder)
    requires i <= |items|
    ensures var fault := FaultFrom(items, i, decode);
      && (fault.None? <==> forall k :: i <= k < |items| ==> AMessage(items[k], decode))
      && (fault.Some? ==> Blames(fault.value, "messages", map[]))
    decreases |items| - i
  {
    if i < |items| {
      MessageChecked(items[i], i, decode);
      hide MessageFault, AMessage;
      MessagesCheckedFrom(items, i + 1, decode);
    }
  }

  lemma MessagesChecked(b: Fields, rules: Rules, decode: Decoder)
    ensures var fault := MessagesFault(Get(b, "messages"), decode);
      && (fault.None? <==> Good("messages", b, rules, decode)) && (fault.Some? ==> Blames(fault.value, "messages", b))
  {
    hide AMessage, FaultFrom;
    var j := Get(b, "messages");
    if j.Arr? {
      MessagesCheckedFrom(j.items, 0, decode);
      assert forall m | m in j.items :: exists k :: 0 <= k < |j.items| && j.items[k] == m;
    }
  }

  lemma {:induction false} EntriesBlamed(fields: Fields, keys: seq<string>)
    ensures var fault := EntriesFault(fields, keys); fault.Some? ==> fault.value in {Crash, Bad("logit_bias")}
  {
    hide Overflows, TokenId;
    if keys != [] { EntriesBlamed(fields, keys[..|keys| - 1]); }
  }

  lemma EntryIsGood(fields: Fields, key: string)
    requires key in fields
    ensures Crashes.GoodEntry(fields, key) <==> AnEntry(key, fields[key])
  {
    hide Overflows;
  }

  lemma BiasChecked(b: Fields, rules: Rules, decode: Decoder, order: Listing)
    requires Lists(order)
    ensures var fault := BiasFault(b, order);
      && (fault.None? <==> Good("logit_bias", b, rules, decode)) && (fault.Some? ==> fault.value in {Crash, Bad("logit_bias")})
  {
    var j := Get(b, "logit_bias");
    if j.Obj? {
      forall key | key in j.fields ensures Crashes.GoodEntry(j.fields, key) <==> AnEntry(key, j.fields[key]) {
        EntryIsGood(j.fields, key);
      }
      hide EntriesFault, Crashes.GoodEntry, AnEntry;
      var keys := order(j.fields);
      Crashes.EntriesCrash(j.fields, keys);
      EntriesBlamed(j.fields, keys);
      assert forall key :: key in keys <==> key in j.fields by { assert forall key | key in keys :: key in Order.Elements(keys); }
      if forall key | key in j.fields :: AnEntry(key, j.fields[key]) {
        assert Crashes.AllGoodEntries(j.fields, keys);
      } else {
        var key :| key in j.fields && !Crashes.GoodEntry(j.fields, key);
        var k :| 0 <= k < |keys| && keys[k] == key;
      }
    }
  }

  lemma OthersChecked(field: string, b: Fields, rules: Rules, decode: Decoder, order: Listing)
    requires field in {"model", "tools", "stream", "stream_options", "n", "top_k", "seed", "stop", "max_tokens"}
    ensures var fault := FieldFault(field, b, rules, decode, order);
      && (fault.None? <==> Good(field, b, rules, decode)) && (fault.Some? ==> Blames(fault.value, field, b))
  {
    hide AMessage, AnEntry;
    if field == "tools" {
      assert forall tool :: GoodTool(tool) <==> ATool(tool);
      hide GoodTool, ATool;
    }
  }

  lemma EffortChecked(b: Fields, rules: Rules, decode: Decoder)
    ensures var fault := EffortFault(b, rules);
      && (fault.None? <==> Good("reasoning_effort", b, rules, decode)) && (fault.Some? ==> fault.value == Bad("reasoning_effort"))
  {
    assert forall s :: s in NO_THINKING || s in EFFORT_LEVELS <==> s in {"none", "minimal", "low", "medium", "high", "xhigh"};
  }

  /** The bounds of the number fields. */
  function Bounds(field: string): (real, real) {
    match field
    case "temperature" => (0.0, 2.0)
    case "presence_penalty" => (-2.0, 2.0)
    case "frequency_penalty" => (-2.0, 2.0)
    case "repetition_penalty" => (0.0, 10.0)
    case _ => (0.0, 1.0)
  }

  lemma NumberFieldIs(field: string, b: Fields, rules: Rules, decode: Decoder, order: Listing)
    requires field in CRASHING && field != "logit_bias"
    ensures var (low, high) := Bounds(field);
      && -10.0 <= low && high <= 10.0
      && FieldFault(field, b, rules, decode, order) == NumberFault(b, NumberField(field, low, high))
      && Good(field, b, rules, decode) == Between(Get(b, field), low, high)
      && forall e :: e in {Crash, Bad(field)} ==> Blames(e, field, b)
  {
    hide NumberFault, Between;
  }

  lemma NumberFieldChecked(field: string, b: Fields, rules: Rules, decode: Decoder, order: Listing)
    requires field in CRASHING && field != "logit_bias"
    ensures var fault := FieldFault(field, b, rules, decode, order);
      && (fault.None? <==> Good(field, b, rules, decode)) && (fault.Some? ==> Blames(fault.value, field, b))
  {
    hide NumberFault, Between, FieldFault, Good, Blames, Bounds;
    NumberFieldIs(field, b, rules, decode, order);
    NumberChecked(b, field, Bounds(field).0, Bounds(field).1);
  }

  /** Every check names its field, and only if that is not good. */
  lemma FieldChecked(field: string, b: Fields, rules: Rules, decode: Decoder, order: Listing)
    requires Lists(order) && field in CHECKS
    ensures var fault := FieldFault(field, b, rules, decode, order);
      && (fault.None? <==> Good(field, b, rules, decode)) && (fault.Some? ==> Blames(fault.value, field, b))
  {
    hide NumberFault, Between, AMessage, AnEntry, MessagesFault, ToolsFault, BiasFault, EffortOf, EffortFault;
    if field == "messages" {
      MessagesChecked(b, rules, decode);
    } else if field == "logit_bias" {
      BiasChecked(b, rules, decode, order);
    } else if field == "reasoning_effort" {
      EffortChecked(b, rules, decode);
    } else if field in CRASHING {
      NumberFieldChecked(field, b, rules, decode, order);
    } else {
      OthersChecked(field, b, rules, decode, order);
    }
  }

  // ---- In order ----

  /** The first fault among the checks from this one on. */
  function FaultsFrom(i: nat, b: Fields, rules: Rules, decode: Decoder, order: Listing): Option<Error>
    requires i <= |CHECKS|
    decreases |CHECKS| - i
  {
    if i == |CHECKS| then None else Else(FieldFault(CHECKS[i], b, rules, decode, order), FaultsFrom(i + 1, b, rules, decode, order))
  }

  lemma FaultsOneMore(i: nat, b: Fields, rules: Rules, decode: Decoder, order: Listing)
    requires i < |CHECKS|
    ensures FaultsFrom(i, b, rules, decode, order)
      == Else(FieldFault(CHECKS[i], b, rules, decode, order), FaultsFrom(i + 1, b, rules, decode, order))
  {
    hide FieldFault, Else;
  }

  lemma NumbersInOrder(b: Fields)
    ensures NumbersFault(b, NUMBER_FIELDS) ==
      Else(NumberFault(b, NumberField("temperature", 0.0, 2.0)),
      Else(NumberFault(b, NumberField("top_p", 0.0, 1.0)),
      Else(NumberFault(b, NumberField("min_p", 0.0, 1.0)),
      Else(NumberFault(b, NumberField("presence_penalty", -2.0, 2.0)),
      Else(NumberFault(b, NumberField("frequency_penalty", -2.0, 2.0)),
           NumberFault(b, NumberField("repetition_penalty", 0.0, 10.0)))))))
  {
    hide NumberFault;
    var f := NUMBER_FIELDS;
    assert f[..6] == f && f[..6][..5] == f[..5] && f[..5][..4] == f[..4] && f[..4][..3] == f[..3];
    assert f[..3][..2] == f[..2] && f[..2][..1] == f[..1] && f[..1][..0] == [];
    assert NumbersFault(b, f[..1]) == NumberFault(b, f[0]);
    assert NumbersFault(b, f[..2]) == Else(NumbersFault(b, f[..1]), NumberFault(b, f[1]));
    assert NumbersFault(b, f[..3]) == Else(NumbersFault(b, f[..2]), NumberFault(b, f[2]));
    assert NumbersFault(b, f[..4]) == Else(NumbersFault(b, f[..3]), NumberFault(b, f[3]));
    assert NumbersFault(b, f[..5]) == Else(NumbersFault(b, f[..4]), NumberFault(b, f[4]));
    assert NumbersFault(b, f[..6]) == Else(NumbersFault(b, f[..5]), NumberFault(b, f[5]));
  }

  lemma LastChecks(b: Fields, rules: Rules, decode: Decoder, order: Listing)
    ensures FaultsFrom(12, b, rules, decode, order)
      == Else(TopKFault(b), Else(SeedFault(b), Else(StopFault(b), Else(BiasFault(b, order), Else(TokensFault(b), EffortFault(b, rules))))))
  {
    hide FaultsFrom, TopKFault, SeedFault, StopFault, BiasFault, TokensFault, EffortFault;
    FaultsOneMore(12, b, rules, decode, order);
    FaultsOneMore(13, b, rules, decode, order);
    FaultsOneMore(14, b, rules, decode, order);
    FaultsOneMore(15, b, rules, decode, order);
    FaultsOneMore(16, b, rules, decode, order);
    FaultsOneMore(17, b, rules, decode, order);
    NoneAreLeft(b, rules, decode, order);
  }

  lemma NumberChecks(b: Fields, rules: Rules, decode: Decoder, order: Listing)
    ensures FaultsFrom(6, b, rules, decode, order) == Else(NumbersFault(b, NUMBER_FIELDS), FaultsFrom(12, b, rules, decode, order))
  {
    NumbersInOrder(b);
    hide FaultsFrom, NumberFault, NumbersFault, NUMBER_FIELDS;
    FaultsOneMore(6, b, rules, decode, order);
    FaultsOneMore(7, b, rules, decode, order);
    FaultsOneMore(8, b, rules, decode, order);
    FaultsOneMore(9, b, rules, decode, order);
    FaultsOneMore(10, b, rules, decode, order);
    FaultsOneMore(11, b, rules, decode, order);
  }

  lemma FirstChecks(b: Fields, rules: Rules, decode: Decoder, order: Listing)
    ensures FaultsFrom(0, b, rules, decode, order)
      == Else(ModelFault(b, rules), Else(MessagesFault(Get(b, "messages"), decode), Else(ToolsFault(Get(b, "tools")),
         Else(FlagsFault(b), FaultsFrom(6, b, rules, decode, order)))))
  {
    hide FaultsFrom, ModelFault, MessagesFault, ToolsFault, StreamFault, OptionsFault, CountFault;
    FaultsOneMore(0, b, rules, decode, order);
    FaultsOneMore(1, b, rules, decode, order);
    FaultsOneMore(2, b, rules, decode, order);
    FaultsOneMore(3, b, rules, decode, order);
    FaultsOneMore(4, b, rules, decode, order);
    FaultsOneMore(5, b, rules, decode, order);
  }

  lemma FirstIsFold(body: Json, rules: Rules, decode: Decoder, order: Listing)
    requires body.Obj?
    ensures FirstFault(body, rules, decode, order) == FaultsFrom(0, body.fields, rules, decode, order)
  {
    var b := body.fields;
    hide FaultsFrom, NumbersFault, MessagesFault, ToolsFault, FlagsFault, TopKFault;
    hide SeedFault, StopFault, BiasFault, TokensFault, EffortFault, ModelFault, NUMBER_FIELDS;
    FirstChecks(b, rules, decode, order);
    NumberChecks(b, rules, decode, order);
    LastChecks(b, rules, decode, order);
  }

  lemma NoneAreLeft(b: Fields, rules: Rules, decode: Decoder, order: Listing)
    ensures FaultsFrom(|CHECKS|, b, rules, decode, order) == None
  {
  }

  /** This check is the first that is not passed, and the error is its own. */
  ghost predicate Decides(k: nat, e: Error, b: Fields, rules: Rules, decode: Decoder) {
    k < |CHECKS| && GoodBefore(k, b, rules, decode) && !Good(CHECKS[k], b, rules, decode) && Blames(e, CHECKS[k], b)
  }

  /** All checks before this one are passed. */
  ghost predicate GoodBefore(i: nat, b: Fields, rules: Rules, decode: Decoder) {
    i <= |CHECKS| && forall k :: 0 <= k < i ==> Good(CHECKS[k], b, rules, decode)
  }

  lemma {:induction false} FoldIsFirst(i: nat, b: Fields, rules: Rules, decode: Decoder, order: Listing)
    requires Lists(order) && i <= |CHECKS| && GoodBefore(i, b, rules, decode)
    ensures var fault := FaultsFrom(i, b, rules, decode, order);
      && (fault.None? <==> GoodBefore(|CHECKS|, b, rules, decode))
      && (fault.Some? ==> exists k :: Decides(k, fault.value, b, rules, decode))
    decreases |CHECKS| - i
  {
    hide Good, Blames, FieldFault, CHECKS;
    if i < |CHECKS| {
      FaultsOneMore(i, b, rules, decode, order);
      FieldChecked(CHECKS[i], b, rules, decode, order);
      if Good(CHECKS[i], b, rules, decode) {
        FoldIsFirst(i + 1, b, rules, decode, order);
      } else {
        assert Decides(i, FaultsFrom(i, b, rules, decode, order).value, b, rules, decode);
      }
    }
  }

  /**
   * A request is accepted exactly if every field is what it has to be. Otherwise the first field
   * that is not, in the order of the checks, decides, and the answer names it.
   */
  lemma FirstBadFieldDecides(body: Json, rules: Rules, decode: Decoder, order: Listing)
    requires Lists(order)
    ensures var fault := FirstFault(body, rules, decode, order);
      if !body.Obj? then fault == Some(Api(400, None, None))
      else
        && (fault.None? <==> forall field | field in CHECKS :: Good(field, body.fields, rules, decode))
        && (fault.Some? ==> exists k :: Decides(k, fault.value, body.fields, rules, decode))
  {
    if body.Obj? {
      FirstIsFold(body, rules, decode, order);
      hide FaultsFrom, FirstFault, Good, Blames, CHECKS, Decides;
      FoldIsFirst(0, body.fields, rules, decode, order);
      assert GoodBefore(|CHECKS|, body.fields, rules, decode) <==> forall field | field in CHECKS :: Good(field, body.fields, rules, decode);
    }
  }

  // ---- What the backend gets ----

  /** The client's own value, or the profile's. */
  function Given(b: Fields, field: string, otherwise: Json): Json {
    if Get(b, field).Null? then otherwise else Get(b, field)
  }

  /** The template arguments of an effort, as the client names it. */
  function Arguments(effort: Json, thinksAnyway: bool, variable: Option<string>): Fields {
    if effort == Str("none") || effort == Str("minimal") then
      if thinksAnyway then map["enable_thinking" := Bool(false)] else map[]
    else if !effort.Str? then map[]
    else
      var on: Fields := map["enable_thinking" := Bool(true)];
      if variable.None? || variable.value == "" then on
      else on[variable.value := Str(if effort.s == "high" then "xhigh" else effort.s)]
  }

  function Thinks(effort: Json, thinksAnyway: bool): bool {
    if effort.Str? then effort.s != "none" && effort.s != "minimal" else thinksAnyway
  }

  /** An effort that is accepted switches thinking as its name says, and sets the effort argument if there is one. */
  lemma EffortsByName(effort: Json, rules: Rules)
    requires effort.Null? || (effort.Str? && effort.s in {"none", "minimal", "low", "medium", "high", "xhigh"})
    ensures var r := EffortOf(effort, rules);
      && r.Ok? && r.value.thinking == Thinks(effort, rules.defaultThinking)
      && r.value.args == Arguments(effort, rules.defaultThinking, rules.effortVariable)
      && r.value.name == if effort.Null? then "default" else if r.value.thinking then effort.s else "none"
  {
    assert "none" in NO_THINKING && "minimal" in NO_THINKING && "low" in EFFORT_LEVELS && "medium" in EFFORT_LEVELS;
    assert "high" in EFFORT_LEVELS && "xhigh" in EFFORT_LEVELS;
  }

  /** What stands in the request to the backend under a key. */
  function Sent(key: string, p: Config.Profile, hasEffort: bool, b: Fields, messages: seq<Fields>): Json {
    var effort := Get(b, "reasoning_effort");
    var thinking := Thinks(effort, p.backend.enableThinking);
    var args := Arguments(effort, p.backend.enableThinking, if hasEffort then Some("reasoning_effort") else None);
    match key
    case "model" => Str("default_model")
    case "messages" => Objects(messages)
    case "tools" => if Get(b, "tool_choice") == Str("none") || Get(b, "tools") == Arr([]) then Null else Get(b, "tools")
    case "temperature" => Given(b, key, Float(if thinking then p.backend.thinkingTemperature else p.backend.temperature))
    case "top_p" => Given(b, key, Float(if thinking then p.backend.thinkingTopP else p.backend.topP))
    case "top_k" => Given(b, key, Int(if thinking then p.backend.thinkingTopK else p.backend.topK))
    case "min_p" => Get(b, key)
    case "presence_penalty" => Get(b, key)
    case "frequency_penalty" => Get(b, key)
    case "repetition_penalty" => Get(b, key)
    case "seed" => Get(b, key)
    case "stop" => (var stop := Get(b, key); if stop.Str? then Arr([stop]) else if stop == Arr([]) then Null else stop)
    case "logit_bias" => if Get(b, key) == Obj(map[]) then Null else Get(b, key)
    case "chat_template_kwargs" => if args == map[] then Null else Obj(args)
    case "stream" => Bool(true)
    case "stream_options" => Obj(map["include_usage" := Bool(true)])
    case _ => Null
  }

  lemma LayersWithout(b: Fields, messages: seq<Fields>, tools: Option<Json>, effort: Effort, s: Sampling, key: string)
    requires key in {"stop", "logit_bias", "chat_template_kwargs", "stream_options"}
    ensures key !in SamplingFields(s) && key !in StartPart(messages) && key !in ToolsPart(tools) && key !in Picked(b, COPIED)
    ensures key != "stop" ==> key !in StopPart(b)
    ensures key != "logit_bias" ==> key !in BiasPart(b)
    ensures key != "chat_template_kwargs" ==> key !in ArgsPart(effort.args)
    ensures key != "stream_options" ==> key !in STREAM_PART
  {
    LayerKeys(b, messages, tools, effort, s);
    NamesApart();
    hide SamplingFields, StartPart, ToolsPart, Picked, StopPart, BiasPart, ArgsPart, STREAM_PART, COPIED;
  }

  /** Each of these keys is in one layer only. */
  lemma OneLayerHas(b: Fields, messages: seq<Fields>, tools: Option<Json>, effort: Effort, rules: Rules, key: string)
    requires key in {"stop", "logit_bias", "chat_template_kwargs", "stream_options"}
    ensures Get(SentBody(b, messages, tools, effort, rules), key) ==
      match key
      case "stop" => Get(StopPart(b), key)
      case "logit_bias" => Get(BiasPart(b), key)
      case "chat_template_kwargs" => Get(ArgsPart(effort.args), key)
      case _ => Get(STREAM_PART, key)
  {
    hide SamplingFields, StartPart, ToolsPart, Picked, StopPart, BiasPart, ArgsPart, STREAM_PART, COPIED;
    LayersWithout(b, messages, tools, effort, if effort.thinking then rules.thinkingSampling else rules.sampling, key);
  }

  lemma PartsByName(b: Fields, effort: Effort)
    ensures var stop := Get(b, "stop");
      Get(StopPart(b), "stop") == if stop.Str? then Arr([stop]) else if stop.Arr? && stop.items != [] then stop else Null
    ensures var bias := Get(b, "logit_bias");
      Get(BiasPart(b), "logit_bias") == if bias.Obj? && bias.fields != map[] then bias else Null
    ensures Get(ArgsPart(effort.args), "chat_template_kwargs") == if effort.args == map[] then Null else Obj(effort.args)
    ensures Get(STREAM_PART, "stream_options") == Obj(map["include_usage" := Bool(true)])
  {
  }

  /** The rules of a profile, field by field. */
  lemma RulesByName(p: Config.Profile, hasEffort: bool)
    ensures var rules := RulesFor(p, hasEffort);
      && rules.modelName == p.gateway.modelName && rules.defaultThinking == p.backend.enableThinking
      && rules.limits.maxContext == p.gateway.maxContext && rules.limits.maxOutputTokens == p.gateway.maxOutputTokens
      && rules.limits.minOutputTokens == p.gateway.minOutputTokens
      && (rules.effortVariable == Some("reasoning_effort") <==> hasEffort) && (rules.effortVariable.None? <==> !hasEffort)
  {
  }

  lemma RecommendedByName(p: Config.Profile, hasEffort: bool, thinking: bool)
    ensures var rules := RulesFor(p, hasEffort);
      var s := SamplingFields(if thinking then rules.thinkingSampling else rules.sampling);
      && s.Keys == {"temperature", "top_p", "top_k"}
      && s["temperature"] == Float(if thinking then p.backend.thinkingTemperature else p.backend.temperature)
      && s["top_p"] == Float(if thinking then p.backend.thinkingTopP else p.backend.topP)
      && s["top_k"] == Int(if thinking then p.backend.thinkingTopK else p.backend.topK)
  {
  }

  lemma CopiedByName(key: string)
    ensures key in COPIED <==> key in {
      "temperature", "top_p", "min_p", "presence_penalty", "frequency_penalty", "repetition_penalty", "top_k", "seed"}
  {
  }

  lemma EffortSent(p: Config.Profile, hasEffort: bool, body: Json, prepared: Prepared, decode: Decoder)
    requires IsPrepared(prepared, body, RulesFor(p, hasEffort), decode)
    ensures var rules := RulesFor(p, hasEffort);
      var value := Get(body.fields, "reasoning_effort");
      var effort := EffortOf(value, rules).value;
      && effort.thinking == Thinks(value, p.backend.enableThinking) == prepared.thinking
      && effort.args == Arguments(value, p.backend.enableThinking, if hasEffort then Some("reasoning_effort") else None)
      && prepared.body == SentBody(body.fields, prepared.messages, prepared.tools, effort, rules)
  {
    var rules, value := RulesFor(p, hasEffort), Get(body.fields, "reasoning_effort");
    EffortChecked(body.fields, rules, decode);
    hide SentBody, Objects, MessageFault, Arguments;
    EffortsByName(value, rules);
  }

  lemma ToolsSent(p: Config.Profile, hasEffort: bool, body: Json, prepared: Prepared, decode: Decoder)
    requires IsPrepared(prepared, body, RulesFor(p, hasEffort), decode)
    ensures var b := body.fields;
      (if prepared.tools.Some? then prepared.tools.value else Null)
      == if Get(b, "tool_choice") == Str("none") || Get(b, "tools") == Arr([]) then Null else Get(b, "tools")
  {
    hide SentBody, Objects, MessageFault, EffortOf;
  }

  /** The effort is what the client asked for. */
  ghost predicate Meant(p: Config.Profile, hasEffort: bool, b: Fields, effort: Effort) {
    var value := Get(b, "reasoning_effort");
    && effort.thinking == Thinks(value, p.backend.enableThinking)
    && effort.args == Arguments(value, p.backend.enableThinking, if hasEffort then Some("reasoning_effort") else None)
  }

  lemma OwnLayerSent(p: Config.Profile, hasEffort: bool, b: Fields, messages: seq<Fields>, tools: Option<Json>, effort: Effort, key: string)
    requires Meant(p, hasEffort, b, effort) && key in {"stop", "logit_bias", "chat_template_kwargs", "stream_options"}
    requires var stop, bias := Get(b, "stop"), Get(b, "logit_bias");
      (stop.Null? || stop.Str? || stop.Arr?) && (bias.Null? || bias.Obj?)
    ensures Get(SentBody(b, messages, tools, effort, RulesFor(p, hasEffort)), key) == Sent(key, p, hasEffort, b, messages)
  {
    hide SentBody, Objects, Arguments, Thinks, StopPart, BiasPart, ArgsPart, STREAM_PART;
    OneLayerHas(b, messages, tools, effort, RulesFor(p, hasEffort), key);
    PartsByName(b, effort);
  }

  lemma CopiedSent(p: Config.Profile, hasEffort: bool, b: Fields, messages: seq<Fields>, tools: Option<Json>, effort: Effort, key: string)
    requires Meant(p, hasEffort, b, effort)
    requires key in {"temperature", "top_p", "min_p", "presence_penalty", "frequency_penalty", "repetition_penalty", "top_k", "seed"}
    ensures Get(SentBody(b, messages, tools, effort, RulesFor(p, hasEffort)), key) == Sent(key, p, hasEffort, b, messages)
  {
    hide SentBody, Objects, Arguments, Thinks, COPIED, SamplingFields;
    CopiedByName(key);
    ClientValuesWin(b, messages, tools, effort, RulesFor(p, hasEffort), key);
    RecommendedByName(p, hasEffort, effort.thinking);
  }

  lemma StartSent(p: Config.Profile, hasEffort: bool, b: Fields, messages: seq<Fields>, tools: Option<Json>, effort: Effort, key: string)
    requires key in {"model", "messages", "tools", "stream"}
    requires (if tools.Some? then tools.value else Null)
      == if Get(b, "tool_choice") == Str("none") || Get(b, "tools") == Arr([]) then Null else Get(b, "tools")
    ensures Get(SentBody(b, messages, tools, effort, RulesFor(p, hasEffort)), key) == Sent(key, p, hasEffort, b, messages)
  {
    hide SentBody, Objects, Arguments, Thinks;
    PreparedFieldsAreSent(b, messages, tools, effort, RulesFor(p, hasEffort));
  }

  lemma NothingElseSent(p: Config.Profile, hasEffort: bool, b: Fields, messages: seq<Fields>, tools: Option<Json>, effort: Effort, key: string)
    requires key !in {"stop", "logit_bias", "chat_template_kwargs", "stream_options", "model", "messages", "tools", "stream",
      "temperature", "top_p", "min_p", "presence_penalty", "frequency_penalty", "repetition_penalty", "top_k", "seed"}
    ensures Get(SentBody(b, messages, tools, effort, RulesFor(p, hasEffort)), key) == Sent(key, p, hasEffort, b, messages)
  {
    hide SentBody, Objects, Arguments, Thinks, COPIED;
    OnlyKnownFieldsAreSent(b, messages, tools, effort, RulesFor(p, hasEffort));
    CopiedByName(key);
  }

  /**
   * What the backend gets, key by key, for a request that is accepted: the client's values where
   * there are any, the profile's for the mode that the effort asks for, and nothing else.
   */
  lemma SentKeyByKey(p: Config.Profile, hasEffort: bool, body: Json, prepared: Prepared, decode: Decoder, order: Listing, key: string)
    requires IsPrepared(prepared, body, RulesFor(p, hasEffort), decode)
    requires Lists(order) && FirstFault(body, RulesFor(p, hasEffort), decode, order).None?
    ensures Get(prepared.body, key) == Sent(key, p, hasEffort, body.fields, prepared.messages)
  {
    var b, messages, tools := body.fields, prepared.messages, prepared.tools;
    var effort := EffortOf(Get(b, "reasoning_effort"), RulesFor(p, hasEffort)).value;
    EffortSent(p, hasEffort, body, prepared, decode);
    ToolsSent(p, hasEffort, body, prepared, decode);
    FirstBadFieldDecides(body, RulesFor(p, hasEffort), decode, order);
    hide FirstFault, SentBody, EffortOf, Sent, Good, IsPrepared, CHECKS, Arguments, Thinks, RulesFor;
    StopIsGood(b, RulesFor(p, hasEffort), decode);
    if key in {"stop", "logit_bias", "chat_template_kwargs", "stream_options"} {
      OwnLayerSent(p, hasEffort, b, messages, tools, effort, key);
    } else if key in {"temperature", "top_p", "min_p", "presence_penalty", "frequency_penalty", "repetition_penalty", "top_k", "seed"} {
      CopiedSent(p, hasEffort, b, messages, tools, effort, key);
    } else if key in {"model", "messages", "tools", "stream"} {
      StartSent(p, hasEffort, b, messages, tools, effort, key);
    } else {
      NothingElseSent(p, hasEffort, b, messages, tools, effort, key);
    }
  }

  lemma StopIsGood(b: Fields, rules: Rules, decode: Decoder)
    requires forall field | field in CHECKS :: Good(field, b, rules, decode)
    ensures var stop, bias := Get(b, "stop"), Get(b, "logit_bias");
      (stop.Null? || stop.Str? || stop.Arr?) && (bias.Null? || bias.Obj?)
  {
    assert CHECKS[14] == "stop" && CHECKS[15] == "logit_bias";
    assert Good("stop", b, rules, decode) && Good("logit_bias", b, rules, decode);
  }

  /** The wanted number of tokens: `max_completion_tokens` if it is given, else `max_tokens`. */
  lemma TokensByName(p: Config.Profile, hasEffort: bool, body: Json, prepared: Prepared, decode: Decoder)
    requires IsPrepared(prepared, body, RulesFor(p, hasEffort), decode)
    ensures var first, second := Get(body.fields, "max_completion_tokens"), Get(body.fields, "max_tokens");
      prepared.requestedMaxTokens ==
      if first.Int? then Some(first.n) else if first.Null? && second.Int? then Some(second.n) else None
  {
    hide SentBody, Objects, MessageFault, EffortOf;
  }

  /** A message goes on as it came, but a developer becomes the system. */
  lemma MessagesByName(m: Json, key: string)
    requires m.Obj?
    ensures Get(Renamed(m), key) ==
      if key == "role" && Get(m.fields, "role") == Str("developer") then Str("system") else Get(m.fields, key)
  {
  }
}
