/** Turning a client's chat request into the backend's. JSON objects are values here. */
module Translate {
  import opened Wrappers
  import opened Json
  import Config
  import Order
  import Sizes

  /** What the client is told, or Crash for an exception that is not an ApiError. */
  datatype Error = Api(status: nat, code: Option<string>, param: Option<string>) | Crash

  function Bad(param: string): Error {
    Api(400, Some("invalid_value"), Some(param))
  }

  const BACKEND_MODEL := "default_model"
  const THINKING_SWITCH := "enable_thinking"
  const NO_THINKING := {"none", "minimal"}
  const EFFORT_LEVELS := map["low" := "low", "medium" := "medium", "high" := "xhigh", "xhigh" := "xhigh"]
  const MESSAGE_ROLES := {"system", "developer", "user", "assistant", "tool"}

  datatype Sampling = Sampling(temperature: real, topP: real, topK: int)

  datatype Limits = Limits(maxContext: int, maxOutputTokens: int, minOutputTokens: int)

  datatype Rules = Rules(
    modelName: string, limits: Limits, defaultThinking: bool,
    sampling: Sampling, thinkingSampling: Sampling, effortVariable: Option<string>)

  /** `rules_for`: the rules of a profile; the template either has the effort argument or not. */
  function RulesFor(p: Config.Profile, hasEffort: bool): Rules {
    Rules(
      p.gateway.modelName,
      Limits(p.gateway.maxContext, p.gateway.maxOutputTokens, p.gateway.minOutputTokens),
      p.backend.enableThinking,
      Sampling(p.backend.temperature, p.backend.topP, p.backend.topK),
      Sampling(p.backend.thinkingTemperature, p.backend.thinkingTopP, p.backend.thinkingTopK),
      if hasEffort then Some("reasoning_effort") else None)
  }

  /** The template arguments the backend is started with. */
  function BackendDefaults(p: Config.Profile): Fields {
    map[THINKING_SWITCH := Bool(p.backend.enableThinking)]
  }

  // ---- Token budget ----

  function Min(a: int, b: int): int {
    if a <= b then a else b
  }

  function Limit(prompt: nat, requested: Option<int>, limits: Limits): Result<int, Error> {
    if prompt > limits.maxContext - limits.minOutputTokens then
      Err(Api(400, Some("context_length_exceeded"), Some("messages")))
    else
      var allowed := Min(limits.maxOutputTokens, limits.maxContext - prompt);
      Ok(match requested { case None => allowed case Some(n) => Min(n, allowed) })
  }

  /** Everything a number of output tokens has to respect. */
  predicate Allowed(n: int, prompt: nat, requested: Option<int>, limits: Limits) {
    n <= limits.maxOutputTokens && prompt + n <= limits.maxContext && (requested.Some? ==> n <= requested.value)
  }

  /**
   * Under an accepted profile the limit refuses exactly the prompts that leave too little room,
   * and otherwise is the largest number allowed, never below what the profile keeps for answers
   * unless less was asked for.
   */
  lemma LimitIsLargest(p: Config.Profile, hasEffort: bool, prompt: nat, requested: Option<int>)
    requires Config.Sound(p) && (requested.Some? ==> requested.value >= 1)
    ensures var limits := RulesFor(p, hasEffort).limits;
      var r := Limit(prompt, requested, limits);
      && (r.Err? <==> prompt > p.gateway.maxContext - p.gateway.minOutputTokens)
      && (r.Ok? ==>
            && r.value >= 1
            && Allowed(r.value, prompt, requested, limits)
            && (forall n :: Allowed(n, prompt, requested, limits) ==> n <= r.value)
            && r.value >= match requested {
                 case None => p.gateway.minOutputTokens
                 case Some(n) => Min(n, p.gateway.minOutputTokens)
               })
  {
    var limits := RulesFor(p, hasEffort).limits;
    var r := Limit(prompt, requested, limits);
    if r.Ok? {
      forall n | Allowed(n, prompt, requested, limits) ensures n <= r.value {}
    }
  }

  /** For every file that is accepted as a profile, the limit is the largest number allowed. */
  lemma AcceptedProfileLimits(name: string, data: Fields, hasEffort: bool, prompt: nat, requested: Option<int>)
    requires Config.NoNulls(data) && Config.BadFields(data) == {}
    requires Config.Conflicts(Config.ProfileOf(name, data)) == {}
    requires requested.Some? ==> requested.value >= 1
    ensures var limits := RulesFor(Config.ProfileOf(name, data), hasEffort).limits;
      match Limit(prompt, requested, limits)
      case Err(_) => prompt > limits.maxContext - limits.minOutputTokens
      case Ok(n) =>
        && Allowed(n, prompt, requested, limits)
        && (forall m :: Allowed(m, prompt, requested, limits) ==> m <= n)
        && n >= 1 && n >= match requested {
             case None => limits.minOutputTokens
             case Some(asked) => Min(asked, limits.minOutputTokens)
           }
  {
    hide Config.BadFields, Config.Conflicts, Config.ProfileOf, Config.NoNulls;
    Config.AcceptedIsSound(name, data);
    LimitIsLargest(Config.ProfileOf(name, data), hasEffort, prompt, requested);
  }

  // ---- Messages ----

  /** `json.loads`: a value, a ValueError, or a RecursionError for text that is nested too deep. */
  datatype Decoding = Decoded(value: Json) | NotJson | TooDeep

  type Decoder = string -> Decoding

  predicate TextPart(part: Json) {
    part.Obj? && Get(part.fields, "type") == Str("text") && Get(part.fields, "text").Str?
  }

  predicate GoodContent(content: Json) {
    content.Null? || content.Str? || (content.Arr? && forall part | part in content.items :: TextPart(part))
  }

  function FunctionOf(call: Json): Json {
    if call.Obj? then Get(call.fields, "function") else Null
  }

  predicate GoodCall(call: Json, decode: Decoder) {
    var f := FunctionOf(call);
    && f.Obj? && Get(f.fields, "name").Str?
    && var arguments := Get(f.fields, "arguments");
       arguments.Null? || (arguments.Str? && (arguments.s == "" || decode(arguments.s).Decoded?))
  }

  /** Only ValueError is caught where arguments are decoded. */
  function CallFault(call: Json, where: string, decode: Decoder): Option<Error> {
    var f := FunctionOf(call);
    if !f.Obj? || !Get(f.fields, "name").Str? then Some(Bad(where + ".tool_calls"))
    else
      var arguments := Get(f.fields, "arguments");
      if arguments.Null? || arguments == Str("") then None
      else if !arguments.Str? then Some(Bad(where + ".tool_calls"))
      else match decode(arguments.s)
        case Decoded(_) => None
        case NotJson => Some(Bad(where + ".tool_calls"))
        case TooDeep => Some(Crash)
  }

  function CallsFaultFrom(items: seq<Json>, j: nat, where: string, decode: Decoder): Option<Error>
    requires j <= |items|
    decreases |items| - j
  {
    if j == |items| then None
    else if CallFault(items[j], where, decode).Some? then CallFault(items[j], where, decode)
    else CallsFaultFrom(items, j + 1, where, decode)
  }

  /** The first thing wrong with the calls of a message. */
  function CallsFault(calls: Json, where: string, decode: Decoder): Option<Error> {
    if calls.Null? then None
    else if !calls.Arr? then Some(Bad(where + ".tool_calls"))
    else CallsFaultFrom(calls.items, 0, where, decode)
  }

  lemma {:induction false} NoFaultMeansGood(items: seq<Json>, j: nat, where: string, decode: Decoder)
    requires j <= |items|
    ensures CallsFaultFrom(items, j, where, decode).None? <==> forall k :: j <= k < |items| ==> GoodCall(items[k], decode)
    decreases |items| - j
  {
    if j < |items| {
      assert CallFault(items[j], where, decode).None? <==> GoodCall(items[j], decode);
      hide GoodCall, CallFault;
      NoFaultMeansGood(items, j + 1, where, decode);
    }
  }

  lemma CallsAreGood(calls: Json, where: string, decode: Decoder)
    ensures CallsFault(calls, where, decode).None? <==> GoodCalls(calls, decode)
  {
    hide GoodCall, CallsFaultFrom;
    if calls.Arr? {
      NoFaultMeansGood(calls.items, 0, where, decode);
      assert forall call | call in calls.items :: exists k :: 0 <= k < |calls.items| && calls.items[k] == call;
    }
  }

  predicate GoodCalls(calls: Json, decode: Decoder) {
    calls.Null? || (calls.Arr? && forall call | call in calls.items :: GoodCall(call, decode))
  }

  method CheckContent(content: Json, where: string) returns (error: Option<Error>)
    ensures error == if GoodContent(content) then None else Some(Bad(where + ".content"))
  {
    error := None;
    if !content.Null? && !content.Str? {
      if !content.Arr? {
        return Some(Bad(where + ".content"));
      }
      for j := 0 to |content.items|
        invariant forall k :: 0 <= k < j ==> TextPart(content.items[k])
      {
        var part := content.items[j];
        var kind := if part.Obj? then Get(part.fields, "type") else Null;
        if kind != Str("text") || !Get(part.fields, "text").Str? {
          assert part in content.items && !TextPart(part);
          return Some(Bad(where + ".content"));
        }
      }
    }
  }

  method CheckToolCalls(calls: Json, where: string, decode: Decoder) returns (error: Option<Error>)
    ensures error == CallsFault(calls, where, decode)
  {
    error := None;
    if calls.Null? {
      return;
    }
    if !calls.Arr? {
      return Some(Bad(where + ".tool_calls"));
    }
    for j := 0 to |calls.items|
      invariant CallsFault(calls, where, decode) == CallsFaultFrom(calls.items, j, where, decode)
    {
      var f := FunctionOf(calls.items[j]);
      if !f.Obj? || !Get(f.fields, "name").Str? {
        return Some(Bad(where + ".tool_calls"));
      }
      var arguments := Get(f.fields, "arguments");
      if !arguments.Null? && arguments != Str("") {
        if !arguments.Str? || decode(arguments.s).NotJson? {
          return Some(Bad(where + ".tool_calls"));
        }
        if decode(arguments.s).TooDeep? {
          return Some(Crash);
        }
      }
    }
  }

  function Where(i: nat): string {
    "messages[" + Sizes.Decimal(i) + "]"
  }

  /** A role that cannot be hashed raises TypeError when it is looked up in the set of roles. */
  function MessageFault(m: Json, i: nat, decode: Decoder): Option<Error> {
    if !m.Obj? then Some(Bad("messages"))
    else
      var role := Get(m.fields, "role");
      if role.Arr? || role.Obj? then Some(Crash)
      else if !role.Str? || role.s !in MESSAGE_ROLES then Some(Bad("messages"))
      else if !GoodContent(Get(m.fields, "content")) then Some(Bad(Where(i) + ".content"))
      else CallsFault(Get(m.fields, "tool_calls"), Where(i), decode)
  }

  function FaultFrom(items: seq<Json>, i: nat, decode: Decoder): Option<Error>
    requires i <= |items|
    decreases |items| - i
  {
    if i == |items| then None
    else if MessageFault(items[i], i, decode).Some? then MessageFault(items[i], i, decode)
    else FaultFrom(items, i + 1, decode)
  }

  /** The first thing wrong with the messages, in the order they are checked. */
  function MessagesFault(value: Json, decode: Decoder): Option<Error> {
    if !value.Arr? || value.items == [] then Some(Bad("messages")) else FaultFrom(value.items, 0, decode)
  }

  /** A message as it goes on: the template knows "system" only. */
  function Renamed(m: Json): Fields
    requires m.Obj?
  {
    if Get(m.fields, "role") == Str("developer") then m.fields["role" := Str("system")] else m.fields
  }

  function Objects(messages: seq<Fields>): Json {
    Arr(seq(|messages|, i requires 0 <= i < |messages| => Obj(messages[i])))
  }

  method Messages(value: Json, decode: Decoder) returns (r: Result<seq<Fields>, Error>)
    ensures r.Err? <==> MessagesFault(value, decode).Some?
    ensures r.Err? ==> Some(r.error) == MessagesFault(value, decode)
    ensures r.Ok? ==> value.Arr? && |r.value| == |value.items| > 0
    ensures r.Ok? ==> forall i :: 0 <= i < |r.value| ==>
      MessageFault(value.items[i], i, decode).None? && r.value[i] == Renamed(value.items[i])
  {
    if !value.Arr? || value.items == [] {
      return Err(Bad("messages"));
    }
    var result := [];
    hide GoodContent, CallsFault, Where;
    for i := 0 to |value.items|
      invariant MessagesFault(value, decode) == FaultFrom(value.items, i, decode)
      invariant |result| == i
      invariant forall k :: 0 <= k < i ==>
        MessageFault(value.items[k], k, decode).None? && result[k] == Renamed(value.items[k])
    {
      var message := value.items[i];
      if !message.Obj? {
        return Err(Bad("messages"));
      }
      var role := Get(message.fields, "role");
      if role.Arr? || role.Obj? {
        return Err(Crash);
      }
      if !role.Str? || role.s !in MESSAGE_ROLES {
        return Err(Bad("messages"));
      }
      var error := CheckContent(Get(message.fields, "content"), Where(i));
      if error.None? {
        error := CheckToolCalls(Get(message.fields, "tool_calls"), Where(i), decode);
      }
      if error.Some? {
        return Err(error.value);
      }
      var sent := message.fields;
      if role.s == "developer" { sent := sent["role" := Str("system")]; }
      result := result + [sent];
    }
    r := Ok(result);
  }

  // ---- The other fields ----

  predicate GoodTool(tool: Json) {
    && tool.Obj?
    && ("type" in tool.fields ==> tool.fields["type"] == Str("function"))
    && FunctionOf(tool).Obj?
    && Get(FunctionOf(tool).fields, "name").Str?
  }

  predicate NoTools(value: Json) {
    value.Null? || value == Arr([])
  }

  function ToolsFault(value: Json): Option<Error> {
    if NoTools(value) || (value.Arr? && forall tool | tool in value.items :: GoodTool(tool)) then None
    else Some(Bad("tools"))
  }

  function ToolsOf(value: Json, choice: Json): Option<Json> {
    if NoTools(value) || choice == Str("none") then None else Some(value)
  }

  method Tools(value: Json, choice: Json) returns (r: Result<Option<Json>, Error>)
    ensures r == if ToolsFault(value).Some? then Err(ToolsFault(value).value) else Ok(ToolsOf(value, choice))
  {
    if NoTools(value) {
      return Ok(None);
    }
    if !value.Arr? {
      return Err(Bad("tools"));
    }
    for i := 0 to |value.items|
      invariant forall k :: 0 <= k < i ==> GoodTool(value.items[k])
    {
      if !GoodTool(value.items[i]) {
        assert value.items[i] in value.items;
        return Err(Bad("tools"));
      }
    }
    r := Ok(if choice == Str("none") then None else Some(value));
  }

  const TWO_64: int := 0x1_0000_0000_0000_0000
  const TWO_256: int := TWO_64 * TWO_64 * TWO_64 * TWO_64

  /** `math.isfinite` first turns an int into a float, which overflows from 2^1024 - 2^970 on. */
  predicate Overflows(n: int) {
    var limit := TWO_256 * TWO_256 * TWO_256 * (TWO_256 - TWO_64 * TWO_64 * TWO_64 * 0x400);
    n >= limit || n <= -limit
  }

  datatype NumberField = NumberField(name: string, low: real, high: real)

  const NUMBER_FIELDS := [
    NumberField("temperature", 0.0, 2.0), NumberField("top_p", 0.0, 1.0), NumberField("min_p", 0.0, 1.0),
    NumberField("presence_penalty", -2.0, 2.0), NumberField("frequency_penalty", -2.0, 2.0),
    NumberField("repetition_penalty", 0.0, 10.0)]

  function NumberFault(b: Fields, f: NumberField): Option<Error> {
    var j := Get(b, f.name);
    if j.Null? then None
    else if j.Int? && Overflows(j.n) then Some(Crash)
    else if (j.Int? && f.low <= j.n as real <= f.high) || (j.Float? && f.low <= j.x <= f.high) then None
    else Some(Bad(f.name))
  }

  function NumbersFault(b: Fields, fields: seq<NumberField>): Option<Error> {
    if fields == [] then None
    else Else(NumbersFault(b, fields[..|fields| - 1]), NumberFault(b, fields[|fields| - 1]))
  }

  function Else(first: Option<Error>, second: Option<Error>): Option<Error> {
    if first.Some? then first else second
  }

  function ModelFault(b: Fields, rules: Rules): Option<Error> {
    var j := Get(b, "model");
    if j.Null? || j == Str(rules.modelName) then None
    else Some(Api(404, Some("model_not_found"), Some("model")))
  }

  function StreamFault(b: Fields): Option<Error> {
    var j := Get(b, "stream");
    if j.Null? || j.Bool? then None else Some(Bad("stream"))
  }

  function OptionsFault(b: Fields): Option<Error> {
    var j := Get(b, "stream_options");
    if j.Null? || j.Obj? then None else Some(Bad("stream_options"))
  }

  /** In Python 1, 1.0 and True are equal. */
  function CountFault(b: Fields): Option<Error> {
    var j := Get(b, "n");
    if j.Null? || j == Int(1) || j == Float(1.0) || j == Bool(true) then None else Some(Bad("n"))
  }

  function TopKFault(b: Fields): Option<Error> {
    var j := Get(b, "top_k");
    if j.Null? || (j.Int? && j.n >= 0) then None else Some(Bad("top_k"))
  }

  function SeedFault(b: Fields): Option<Error> {
    var j := Get(b, "seed");
    if j.Null? || j.Int? then None else Some(Bad("seed"))
  }

  predicate StopText(j: Json) {
    j.Str? && j.s != ""
  }

  function StopFault(b: Fields): Option<Error> {
    var j := Get(b, "stop");
    if j.Null? || StopText(j) || (j.Arr? && forall s | s in j.items :: StopText(s)) then None
    else Some(Bad("stop"))
  }

  predicate TokenId(key: string) {
    key != "" && forall c | c in key :: Sizes.IsDigit(c)
  }

  /** The order in which the keys of an object are met. */
  type Listing = Fields -> seq<string>

  ghost predicate Lists(order: Listing) {
    forall fields :: Order.Elements(order(fields)) == fields.Keys
  }

  function EntryFault(key: string, value: Json): Option<Error> {
    if !TokenId(key) then Some(Bad("logit_bias"))
    else if value.Int? && Overflows(value.n) then Some(Crash)
    else if value.Int? || value.Float? then None
    else Some(Bad("logit_bias"))
  }

  /** The first entry that is bad decides. */
  function EntriesFault(fields: Fields, keys: seq<string>): Option<Error> {
    if keys == [] then None
    else
      var last := keys[|keys| - 1];
      Else(EntriesFault(fields, keys[..|keys| - 1]), EntryFault(last, Get(fields, last)))
  }

  function BiasFault(b: Fields, order: Listing): Option<Error> {
    var j := Get(b, "logit_bias");
    if j.Null? then None
    else if !j.Obj? then Some(Bad("logit_bias"))
    else EntriesFault(j.fields, order(j.fields))
  }

  /** `max_completion_tokens` wins when both are set. */
  function TokensName(b: Fields): string {
    if !Get(b, "max_completion_tokens").Null? then "max_completion_tokens" else "max_tokens"
  }

  function TokensFault(b: Fields): Option<Error> {
    var j := Get(b, TokensName(b));
    if j.Null? || (j.Int? && j.n >= 1) then None else Some(Bad(TokensName(b)))
  }

  function Requested(b: Fields): Option<int> {
    var j := Get(b, TokensName(b));
    if j.Int? then Some(j.n) else None
  }

  datatype Effort = Effort(name: string, thinking: bool, args: Fields)

  function EffortOf(value: Json, rules: Rules): Result<Effort, Error> {
    if value.Null? then Ok(Effort("default", rules.defaultThinking, map[]))
    else if !value.Str? || (value.s !in NO_THINKING && value.s !in EFFORT_LEVELS) then Err(Bad("reasoning_effort"))
    else if value.s in NO_THINKING then
      Ok(Effort("none", false, if rules.defaultThinking then map[THINKING_SWITCH := Bool(false)] else map[]))
    else
      var on: Fields := map[THINKING_SWITCH := Bool(true)];
      var variable := rules.effortVariable;
      Ok(Effort(value.s, true,
        if variable.Some? && variable.value != "" then on[variable.value := Str(EFFORT_LEVELS[value.s])] else on))
  }

  function EffortFault(b: Fields, rules: Rules): Option<Error> {
    match EffortOf(Get(b, "reasoning_effort"), rules) { case Ok(_) => None case Err(e) => Some(e) }
  }

  /** The first thing wrong with a request, in the order of the checks. */
  function FirstFault(body: Json, rules: Rules, decode: Decoder, order: Listing): Option<Error> {
    if !body.Obj? then Some(Api(400, None, None))
    else
      var b := body.fields;
      Else(ModelFault(b, rules), Else(MessagesFault(Get(b, "messages"), decode), Else(ToolsFault(Get(b, "tools")),
      Else(FlagsFault(b), Else(CopiedFault(b, order), Else(TokensFault(b), EffortFault(b, rules)))))))
  }

  function FlagsFault(b: Fields): Option<Error> {
    Else(StreamFault(b), Else(OptionsFault(b), CountFault(b)))
  }

  function CopiedFault(b: Fields, order: Listing): Option<Error> {
    Else(NumbersFault(b, NUMBER_FIELDS), Else(TopKFault(b), Else(SeedFault(b), Else(StopFault(b), BiasFault(b, order)))))
  }

  // ---- What is sent ----

  datatype Prepared = Prepared(
    body: Fields, messages: seq<Fields>, tools: Option<Json>, templateArgs: Fields,
    requestedMaxTokens: Option<int>, stream: bool, includeUsage: bool, thinking: bool, effort: string)

  function SamplingFields(s: Sampling): Fields {
    map["temperature" := Float(s.temperature), "top_p" := Float(s.topP), "top_k" := Int(s.topK)]
  }

  /** The client's fields that go on unchanged. */
  const COPIED := {
    "temperature", "top_p", "min_p", "presence_penalty", "frequency_penalty", "repetition_penalty", "top_k", "seed"}

  function Picked(b: Fields, keys: set<string>): Fields {
    map key | key in keys && key in b && !b[key].Null? :: b[key]
  }

  function StopPart(b: Fields): Fields {
    var j := Get(b, "stop");
    if j.Str? then map["stop" := Arr([j])] else if j.Arr? && j.items != [] then map["stop" := j] else map[]
  }

  function BiasPart(b: Fields): Fields {
    var j := Get(b, "logit_bias");
    if j.Obj? && j.fields != map[] then map["logit_bias" := j] else map[]
  }

  function ToolsPart(tools: Option<Json>): Fields {
    if tools.Some? then map["tools" := tools.value] else map[]
  }

  function ArgsPart(args: Fields): Fields {
    if args == map[] then map[] else map["chat_template_kwargs" := Obj(args)]
  }

  function StartPart(messages: seq<Fields>): Fields {
    map["model" := Str(BACKEND_MODEL), "messages" := Objects(messages)]
  }

  const STREAM_PART: Fields :=
    map["stream" := Bool(true), "stream_options" := Obj(map["include_usage" := Bool(true)])]

  /** Layer by layer: what stands further right wins. */
  function SentBody(b: Fields, messages: seq<Fields>, tools: Option<Json>, effort: Effort, rules: Rules): Fields {
    SamplingFields(if effort.thinking then rules.thinkingSampling else rules.sampling)
    + (CopiedParts(StartPart(messages) + ToolsPart(tools), b) + ArgsPart(effort.args))
    + STREAM_PART
  }

  function NamesOf(fields: seq<NumberField>): set<string> {
    set f | f in fields :: f.name
  }

  lemma PickedOneMore(start: Fields, b: Fields, keys: set<string>, key: string)
    ensures start + Picked(b, keys + {key}) ==
      if Get(b, key).Null? then start + Picked(b, keys) else (start + Picked(b, keys))[key := Get(b, key)]
  {
  }

  method CopyNumbers(b: Fields, start: Fields) returns (r: Result<Fields, Error>)
    ensures r == match NumbersFault(b, NUMBER_FIELDS) {
      case Some(e) => Err(e)
      case None => Ok(start + Picked(b, NamesOf(NUMBER_FIELDS)))
    }
  {
    hide NUMBER_FIELDS, Overflows, NumberFault, Picked;
    var fields := NUMBER_FIELDS;
    var forward := start;
    NothingPicked(start, b);
    for i := 0 to |fields|
      invariant NumbersFault(b, fields[..i]).None?
      invariant forward == start + Picked(b, NamesOf(fields[..i]))
    {
      var f := fields[i];
      assert fields[..i + 1][..i] == fields[..i];
      assert NamesOf(fields[..i + 1]) == NamesOf(fields[..i]) + {f.name};
      PickedOneMore(start, b, NamesOf(fields[..i]), f.name);
      var fault := NumberFault(b, f);
      if fault.Some? {
        FaultStays(b, fields, i + 1);
        return Err(fault.value);
      }
      if !Get(b, f.name).Null? { forward := forward[f.name := Get(b, f.name)]; }
    }
    assert fields[..|fields|] == fields;
    r := Ok(forward);
  }

  lemma NothingPicked(start: Fields, b: Fields)
    ensures start + Picked(b, NamesOf([])) == start
  {
  }

  lemma {:induction false} FaultStays(b: Fields, fields: seq<NumberField>, k: nat)
    requires k <= |fields| && NumbersFault(b, fields[..k]).Some?
    ensures NumbersFault(b, fields) == NumbersFault(b, fields[..k])
    decreases |fields|
  {
    hide NumberFault;
    if k == |fields| {
      assert fields[..k] == fields;
    } else {
      var before := fields[..|fields| - 1];
      assert before[..k] == fields[..k];
      FaultStays(b, before, k);
    }
  }

  /** The defaults fill only what is not there yet. */
  method SetDefaults(forward: Fields, sampling: Sampling) returns (r: Fields)
    ensures r == SamplingFields(sampling) + forward
  {
    r := forward;
    if "temperature" !in r { r := r["temperature" := Float(sampling.temperature)]; }
    if "top_p" !in r { r := r["top_p" := Float(sampling.topP)]; }
    if "top_k" !in r { r := r["top_k" := Int(sampling.topK)]; }
  }

  lemma CopiedNames()
    ensures NamesOf(NUMBER_FIELDS) + {"top_k"} + {"seed"} == COPIED
  {
    var f := NUMBER_FIELDS;
    assert f[0] in f && f[1] in f && f[2] in f && f[3] in f && f[4] in f && f[5] in f;
    assert forall g | g in f :: g == f[0] || g == f[1] || g == f[2] || g == f[3] || g == f[4] || g == f[5];
  }

  function CopiedParts(start: Fields, b: Fields): Fields {
    start + Picked(b, COPIED) + StopPart(b) + BiasPart(b)
  }

  /** The fields that go on as the client sent them. */
  method CopyFields(b: Fields, start: Fields, order: Listing) returns (r: Result<Fields, Error>)
    ensures r == match CopiedFault(b, order) { case Some(e) => Err(e) case None => Ok(CopiedParts(start, b)) }
  {
    hide NumbersFault, TopKFault, SeedFault, StopFault, BiasFault, Picked, NUMBER_FIELDS, COPIED;
    var numbers := NamesOf(NUMBER_FIELDS);
    var copied := CopyNumbers(b, start);
    if copied.Err? { return Err(copied.error); }
    var fault := Else(TopKFault(b), Else(SeedFault(b), Else(StopFault(b), BiasFault(b, order))));
    if fault.Some? { return Err(fault.value); }
    var forward := copied.value;
    if !Get(b, "top_k").Null? { forward := forward["top_k" := Get(b, "top_k")]; }
    PickedOneMore(start, b, numbers, "top_k");
    if !Get(b, "seed").Null? { forward := forward["seed" := Get(b, "seed")]; }
    PickedOneMore(start, b, numbers + {"top_k"}, "seed");
    CopiedNames();
    hide NamesOf, StopPart, BiasPart;
    r := Ok(forward + StopPart(b) + BiasPart(b));
  }

  /** `prepare`: the first fault, or what to count and what to send. */
  method Prepare(body: Json, rules: Rules, decode: Decoder, order: Listing) returns (r: Result<Prepared, Error>)
    ensures r.Err? <==> FirstFault(body, rules, decode, order).Some?
    ensures r.Err? ==> Some(r.error) == FirstFault(body, rules, decode, order)
    ensures r.Ok? ==> IsPrepared(r.value, body, rules, decode)
  {
    hide MessagesFault, MessageFault, ToolsFault, FlagsFault, CopiedFault, TokensFault, EffortOf, ModelFault;
    hide CopiedParts, SamplingFields, STREAM_PART, StartPart, ToolsPart, ArgsPart, Renamed, ToolsOf, Requested;
    if !body.Obj? {
      return Err(Api(400, None, None));
    }
    var b := body.fields;
    var fault := ModelFault(b, rules);
    if fault.Some? { return Err(fault.value); }
    var messages := Messages(Get(b, "messages"), decode);
    if messages.Err? { return Err(messages.error); }
    var tools := Tools(Get(b, "tools"), Get(b, "tool_choice"));
    if tools.Err? { return Err(tools.error); }
    fault := FlagsFault(b);
    if fault.Some? { return Err(fault.value); }
    var copied := CopyFields(b, StartPart(messages.value) + ToolsPart(tools.value), order);
    if copied.Err? { return Err(copied.error); }
    fault := TokensFault(b);
    if fault.Some? { return Err(fault.value); }
    var effort := EffortOf(Get(b, "reasoning_effort"), rules);
    if effort.Err? { return Err(effort.error); }
    var sent := Finish(copied.value, effort.value, rules);
    var options := Get(b, "stream_options");
    RequestedIsPositive(b);
    r := Ok(Prepared(
      sent, messages.value, tools.value,
      map[THINKING_SWITCH := Bool(rules.defaultThinking)] + effort.value.args,
      Requested(b), Get(b, "stream") == Bool(true),
      options.Obj? && Get(options.fields, "include_usage") == Bool(true),
      effort.value.thinking, effort.value.name));
  }

  lemma RequestedIsPositive(b: Fields)
    ensures TokensFault(b).None? && Requested(b).Some? ==> Requested(b).value >= 1
  {
  }

  /** The template arguments, the recommended values, and what the backend always has to do. */
  method Finish(copied: Fields, effort: Effort, rules: Rules) returns (body: Fields)
    ensures body == SamplingFields(if effort.thinking then rules.thinkingSampling else rules.sampling)
      + (copied + ArgsPart(effort.args)) + STREAM_PART
  {
    hide SamplingFields;
    body := copied;
    if effort.args != map[] { body := body["chat_template_kwargs" := Obj(effort.args)]; }
    assert body == copied + ArgsPart(effort.args);
    body := SetDefaults(body, if effort.thinking then rules.thinkingSampling else rules.sampling);
    body := body["stream" := Bool(true)];
    body := body["stream_options" := Obj(map["include_usage" := Bool(true)])];
  }

  ghost predicate IsPrepared(p: Prepared, body: Json, rules: Rules, decode: Decoder) {
    && body.Obj?
    && var b := body.fields;
      var given := Get(b, "messages");
      var effort := EffortOf(Get(b, "reasoning_effort"), rules);
      var options := Get(b, "stream_options");
      && given.Arr? && |p.messages| == |given.items| > 0
      && (forall i :: 0 <= i < |p.messages| ==>
            MessageFault(given.items[i], i, decode).None? && p.messages[i] == Renamed(given.items[i]))
      && p.tools == ToolsOf(Get(b, "tools"), Get(b, "tool_choice"))
      && effort.Ok? && p.thinking == effort.value.thinking && p.effort == effort.value.name
      && p.templateArgs == map[THINKING_SWITCH := Bool(rules.defaultThinking)] + effort.value.args
      && p.body == SentBody(b, p.messages, p.tools, effort.value, rules)
      && p.requestedMaxTokens == Requested(b) && (p.requestedMaxTokens.Some? ==> p.requestedMaxTokens.value >= 1)
      && p.stream == (Get(b, "stream") == Bool(true))
      && p.includeUsage == (options.Obj? && Get(options.fields, "include_usage") == Bool(true))
  }

  // ---- What the backend is given ----

  const FORWARDED := COPIED + {
    "model", "messages", "tools", "stop", "logit_bias", "chat_template_kwargs", "stream", "stream_options"}

  /** The template arguments in a request to the backend. */
  function ArgsIn(body: Fields): Fields {
    var j := Get(body, "chat_template_kwargs");
    if j.Obj? then j.fields else map[]
  }

  lemma LayerKeys(b: Fields, messages: seq<Fields>, tools: Option<Json>, effort: Effort, s: Sampling)
    ensures SamplingFields(s).Keys == {"temperature", "top_p", "top_k"}
    ensures StartPart(messages).Keys == {"model", "messages"}
    ensures ToolsPart(tools).Keys <= {"tools"} && Picked(b, COPIED).Keys <= COPIED
    ensures StopPart(b).Keys <= {"stop"} && BiasPart(b).Keys <= {"logit_bias"}
    ensures ArgsPart(effort.args).Keys <= {"chat_template_kwargs"}
    ensures STREAM_PART.Keys == {"stream", "stream_options"}
  {
  }

  /** The names are different, so no layer but the defaults can be covered by another. */
  lemma NamesApart()
    ensures "model" !in COPIED && "messages" !in COPIED && "tools" !in COPIED && "stop" !in COPIED
    ensures "logit_bias" !in COPIED && "chat_template_kwargs" !in COPIED
    ensures "stream" !in COPIED && "stream_options" !in COPIED
    ensures "temperature" in COPIED && "top_p" in COPIED && "top_k" in COPIED
  {
  }

  /** Nothing but known fields goes to the backend. */
  lemma OnlyKnownFieldsAreSent(
      b: Fields, messages: seq<Fields>, tools: Option<Json>, effort: Effort, rules: Rules)
    ensures SentBody(b, messages, tools, effort, rules).Keys <= FORWARDED
  {
    hide SamplingFields, StartPart, ToolsPart, Picked, StopPart, BiasPart, ArgsPart, STREAM_PART, COPIED;
    LayerKeys(b, messages, tools, effort, if effort.thinking then rules.thinkingSampling else rules.sampling);
    NamesApart();
  }

  /** It is sent under the backend's own model name, always streaming, with what was prepared. */
  lemma PreparedFieldsAreSent(
      b: Fields, messages: seq<Fields>, tools: Option<Json>, effort: Effort, rules: Rules)
    ensures var sent := SentBody(b, messages, tools, effort, rules);
      && Get(sent, "model") == Str(BACKEND_MODEL) && Get(sent, "messages") == Objects(messages)
      && Get(sent, "stream") == Bool(true)
      && (tools.Some? ==> "tools" in sent && sent["tools"] == tools.value)
      && (tools.None? ==> "tools" !in sent)
      && ArgsIn(sent) == effort.args
  {
    hide SamplingFields, StartPart, ToolsPart, CopiedParts, ArgsPart, STREAM_PART, COPIED, Objects;
    var copied := CopiedParts(StartPart(messages) + ToolsPart(tools), b);
    var sampling := if effort.thinking then rules.thinkingSampling else rules.sampling;
    LayerKeys(b, messages, tools, effort, sampling);
    LayerValues(messages, tools, effort);
    StartSurvives(b, messages, tools, effort);
    NamesApart();
    assert Get(copied + ArgsPart(effort.args), "tools") == Get(copied, "tools");
  }

  /** What stands first is not covered by the fields that are copied. */
  lemma StartSurvives(b: Fields, messages: seq<Fields>, tools: Option<Json>, effort: Effort)
    ensures var copied := CopiedParts(StartPart(messages) + ToolsPart(tools), b);
      && (forall key | key in {"model", "messages"} :: key in copied && copied[key] == StartPart(messages)[key])
      && ("tools" in copied <==> tools.Some?) && (tools.Some? ==> copied["tools"] == tools.value)
      && "chat_template_kwargs" !in copied
  {
    hide SamplingFields, StartPart, ToolsPart, Picked, StopPart, BiasPart, ArgsPart, STREAM_PART, COPIED, Objects;
    LayerKeys(b, messages, tools, effort, Sampling(0.0, 0.0, 0));
    NamesApart();
    LayerValues(messages, tools, effort);
  }

  lemma LayerValues(messages: seq<Fields>, tools: Option<Json>, effort: Effort)
    ensures Get(StartPart(messages), "model") == Str(BACKEND_MODEL)
    ensures Get(StartPart(messages), "messages") == Objects(messages)
    ensures Get(STREAM_PART, "stream") == Bool(true)
    ensures tools.Some? ==> "tools" in ToolsPart(tools) && ToolsPart(tools)["tools"] == tools.value
    ensures tools.None? ==> ToolsPart(tools) == map[]
    ensures ArgsIn(ArgsPart(effort.args)) == effort.args
  {
  }

  /** Sampling fields: the client's own value if there is one, else the recommended one for the mode. */
  lemma ClientValuesWin(
      b: Fields, messages: seq<Fields>, tools: Option<Json>, effort: Effort, rules: Rules, key: string)
    requires key in COPIED
    ensures var sent := SentBody(b, messages, tools, effort, rules);
      var recommended := SamplingFields(if effort.thinking then rules.thinkingSampling else rules.sampling);
      Get(sent, key) == if Get(b, key).Null? then Get(recommended, key) else Get(b, key)
  {
    hide SamplingFields, StartPart, ToolsPart, Picked, StopPart, BiasPart, ArgsPart, STREAM_PART, COPIED;
    var sampling := if effort.thinking then rules.thinkingSampling else rules.sampling;
    OnlyOneLayerHas(b, messages, tools, effort, sampling, key);
    PickedGets(b, key);
  }

  lemma PickedGets(b: Fields, key: string)
    requires key in COPIED
    ensures key in Picked(b, COPIED) <==> !Get(b, key).Null?
    ensures key in Picked(b, COPIED) ==> Picked(b, COPIED)[key] == Get(b, key)
  {
    hide COPIED;
  }

  lemma OnlyOneLayerHas(
      b: Fields, messages: seq<Fields>, tools: Option<Json>, effort: Effort, s: Sampling, key: string)
    requires key in COPIED
    ensures key !in StartPart(messages) && key !in ToolsPart(tools) && key !in StopPart(b) && key !in BiasPart(b)
    ensures key !in ArgsPart(effort.args) && key !in STREAM_PART
  {
    hide SamplingFields, StartPart, ToolsPart, Picked, StopPart, BiasPart, ArgsPart, STREAM_PART, COPIED;
    LayerKeys(b, messages, tools, effort, s);
    NamesApart();
  }

  predicate InRange(j: Json, low: real, high: real) {
    (j.Int? && low <= j.n as real <= high) || (j.Float? && low <= j.x <= high)
  }

  lemma {:induction false} NoFaultAnywhere(b: Fields, fields: seq<NumberField>, f: NumberField)
    requires NumbersFault(b, fields).None? && f in fields
    ensures Get(b, f.name).Null? || InRange(Get(b, f.name), f.low, f.high)
    decreases |fields|
  {
    if f != fields[|fields| - 1] {
      assert f in fields[..|fields| - 1];
      NoFaultAnywhere(b, fields[..|fields| - 1], f);
    }
  }

  lemma RecommendedIsInRange(p: Config.Profile, hasEffort: bool, thinking: bool, f: NumberField)
    requires Config.Sound(p) && f in NUMBER_FIELDS
    ensures var rules := RulesFor(p, hasEffort);
      var recommended := SamplingFields(if thinking then rules.thinkingSampling else rules.sampling);
      && (Get(recommended, f.name).Null? || InRange(Get(recommended, f.name), f.low, f.high))
      && f.name in COPIED
  {
  }

  /**
   * Whatever the client asks for, every number field that reaches the backend is in its range,
   * and temperature, top_p and a top_k that is not negative are always there.
   */
  lemma SentNumbersAreInRange(
      p: Config.Profile, hasEffort: bool, body: Json, prepared: Prepared, decode: Decoder, order: Listing,
      f: NumberField)
    requires Config.Sound(p) && f in NUMBER_FIELDS
    requires IsPrepared(prepared, body, RulesFor(p, hasEffort), decode)
    requires FirstFault(body, RulesFor(p, hasEffort), decode, order).None?
    ensures Get(prepared.body, f.name).Null? || InRange(Get(prepared.body, f.name), f.low, f.high)
    ensures !Get(prepared.body, "temperature").Null? && !Get(prepared.body, "top_p").Null?
    ensures Get(prepared.body, "top_k").Int? && Get(prepared.body, "top_k").n >= 0
  {
    hide NUMBER_FIELDS, COPIED, SentBody, EffortOf, Objects, MessagesFault, ToolsFault, FlagsFault, NumbersFault, Config.Sound;
    var rules, b := RulesFor(p, hasEffort), body.fields;
    var effort := EffortOf(Get(b, "reasoning_effort"), rules).value;
    NoFaultAnywhere(b, NUMBER_FIELDS, f);
    RecommendedIsInRange(p, hasEffort, effort.thinking, f);
    ClientValuesWin(b, prepared.messages, prepared.tools, effort, rules, f.name);
    NamesApart();
    ClientValuesWin(b, prepared.messages, prepared.tools, effort, rules, "temperature");
    ClientValuesWin(b, prepared.messages, prepared.tools, effort, rules, "top_p");
    ClientValuesWin(b, prepared.messages, prepared.tools, effort, rules, "top_k");
    RecommendedTopK(p, hasEffort, effort.thinking);
  }

  lemma RecommendedTopK(p: Config.Profile, hasEffort: bool, thinking: bool)
    requires Config.Sound(p)
    ensures var rules := RulesFor(p, hasEffort);
      var recommended := SamplingFields(if thinking then rules.thinkingSampling else rules.sampling);
      && Get(recommended, "top_k").Int? && Get(recommended, "top_k").n >= 0
      && Get(recommended, "temperature").Float? && Get(recommended, "top_p").Float?
  {
  }

  /** The thinking switch that is counted is the one reported, unless an effort overwrites the switch. */
  lemma SwitchAgrees(value: Json, rules: Rules)
    requires EffortOf(value, rules).Ok?
    ensures var effort := EffortOf(value, rules).value;
      var applied := map[THINKING_SWITCH := Bool(rules.defaultThinking)] + effort.args;
      applied[THINKING_SWITCH] == Bool(effort.thinking) <==>
      !(value.Str? && value.s in EFFORT_LEVELS && rules.effortVariable == Some(THINKING_SWITCH))
  {
    hide EFFORT_LEVELS, NO_THINKING, THINKING_SWITCH;
    LevelsApart();
    var effort := EffortOf(value, rules).value;
    var variable := rules.effortVariable;
    if value.Str? && value.s in EFFORT_LEVELS {
      assert value.s !in NO_THINKING && effort.thinking;
      if variable.Some? && variable.value != "" {
        assert effort.args == map[THINKING_SWITCH := Bool(true)][variable.value := Str(EFFORT_LEVELS[value.s])];
      }
    }
  }

  /** With such a template the effort "low" takes the place of the switch. */
  lemma EffortCanCoverTheSwitch(rules: Rules)
    requires rules.effortVariable == Some(THINKING_SWITCH)
    ensures EffortOf(Str("low"), rules).Ok? && EffortOf(Str("low"), rules).value.thinking
    ensures EffortOf(Str("low"), rules).value.args == map[THINKING_SWITCH := Str("low")]
  {
    LevelsApart();
    assert "low" in EFFORT_LEVELS && EFFORT_LEVELS["low"] == "low";
  }

  lemma LevelsApart()
    ensures forall level | level in EFFORT_LEVELS :: level !in NO_THINKING
    ensures THINKING_SWITCH != ""
  {
    assert "none" !in EFFORT_LEVELS && "minimal" !in EFFORT_LEVELS;
  }

  /**
   * What is counted is what the backend renders: its own default arguments overlaid with the
   * forwarded ones are the arguments of the count, with the switch on exactly when the answer
   * is meant to think, and messages and tools are the same.
   */
  lemma CountedIsRendered(
      p: Config.Profile, hasEffort: bool, body: Json, prepared: Prepared, decode: Decoder)
    requires IsPrepared(prepared, body, RulesFor(p, hasEffort), decode)
    ensures BackendDefaults(p) + ArgsIn(prepared.body) == prepared.templateArgs
    ensures Get(prepared.templateArgs, THINKING_SWITCH) == Bool(prepared.thinking)
    ensures Get(prepared.body, "messages") == Objects(prepared.messages)
    ensures prepared.tools == if "tools" in prepared.body then Some(prepared.body["tools"]) else None
  {
    hide SentBody, EffortOf, Objects;
    var rules := RulesFor(p, hasEffort);
    var value := Get(body.fields, "reasoning_effort");
    var effort := EffortOf(value, rules).value;
    PreparedFieldsAreSent(body.fields, prepared.messages, prepared.tools, effort, rules);
    SwitchAgrees(value, rules);
  }
}
