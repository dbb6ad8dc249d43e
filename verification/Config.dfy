/** Profiles: reading all five sections, then the rules between fields. */
module Config {
  import opened Wrappers
  import opened Json
  import opened Section
  import Order
  import Sizes

  const IDLE_TIMEOUT := 100

  datatype BackendConfig = BackendConfig(
    port: int, prefillStepSize: int, promptCacheSize: int, promptCacheBytes: nat,
    metalMemoryLimit: nat, toolParser: string, enableThinking: bool,
    temperature: real, topP: real, topK: int,
    thinkingTemperature: real, thinkingTopP: real, thinkingTopK: int, startTimeout: int)

  datatype GatewayConfig = GatewayConfig(
    port: int, modelName: string, maxContext: int, maxOutputTokens: int, minOutputTokens: int,
    queueSize: int, heartbeat: int)

  datatype TunnelConfig = TunnelConfig(enabled: bool, hostname: string)

  datatype Profile = Profile(
    name: string, model: string, backend: BackendConfig, gateway: GatewayConfig,
    tunnel: TunnelConfig, gpuWiredLimitMb: int)

  ghost const MODEL: Rules := map["id" := Rule.Text(AnyText)]

  ghost const BACKEND: Rules := map[
    "port" := Rule.Integer(1024, Some(65535)),
    "prefill_step_size" := Rule.Integer(1, None),
    "prompt_cache_size" := Rule.Integer(0, None),
    "prompt_cache_bytes" := Rule.Size,
    "metal_memory_limit" := Rule.Size,
    "tool_parser" := Rule.Text(ToolParser),
    "enable_thinking" := Rule.Flag,
    "temperature" := Rule.Number(0.0, 2.0),
    "top_p" := Rule.Number(0.0, 1.0),
    "top_k" := Rule.Integer(0, None),
    "thinking_temperature" := Rule.Number(0.0, 2.0),
    "thinking_top_p" := Rule.Number(0.0, 1.0),
    "thinking_top_k" := Rule.Integer(0, None),
    "start_timeout_seconds" := Rule.Integer(1, None)]

  ghost const GATEWAY: Rules := map[
    "port" := Rule.Integer(1024, Some(65535)),
    "model_name" := Rule.Text(ModelName),
    "max_context" := Rule.Integer(1, None),
    "max_output_tokens" := Rule.Integer(1, None),
    "min_output_tokens" := Rule.Integer(1, None),
    "queue_size" := Rule.Integer(0, None),
    "heartbeat_seconds" := Rule.Integer(1, Some(IDLE_TIMEOUT - 1))]

  ghost const TUNNEL: Rules := map["enabled" := Rule.Flag, "hostname" := Rule.Text(Hostname)]

  ghost const SYSTEM: Rules := map["gpu_wired_limit_mb" := Rule.Integer(1, None)]

  const SECTIONS := {"model", "backend", "gateway", "tunnel", "system"}

  function BackendOf(t: Fields): BackendConfig {
    BackendConfig(
      IntegerOf(t, "port"), IntegerOf(t, "prefill_step_size"), IntegerOf(t, "prompt_cache_size"),
      SizeOf(t, "prompt_cache_bytes"), SizeOf(t, "metal_memory_limit"), TextOf(t, "tool_parser"),
      FlagOf(t, "enable_thinking"), NumberOf(t, "temperature"), NumberOf(t, "top_p"),
      IntegerOf(t, "top_k"), NumberOf(t, "thinking_temperature"), NumberOf(t, "thinking_top_p"),
      IntegerOf(t, "thinking_top_k"), IntegerOf(t, "start_timeout_seconds"))
  }

  function GatewayOf(t: Fields): GatewayConfig {
    GatewayConfig(
      IntegerOf(t, "port"), TextOf(t, "model_name"), IntegerOf(t, "max_context"),
      IntegerOf(t, "max_output_tokens"), IntegerOf(t, "min_output_tokens"),
      IntegerOf(t, "queue_size"), IntegerOf(t, "heartbeat_seconds"))
  }

  function ProfileOf(name: string, data: Fields): Profile {
    Profile(
      name, TextOf(TableOf(Get(data, "model")), "id"),
      BackendOf(TableOf(Get(data, "backend"))), GatewayOf(TableOf(Get(data, "gateway"))),
      TunnelConfig(
        FlagOf(TableOf(Get(data, "tunnel")), "enabled"),
        TextOf(TableOf(Get(data, "tunnel")), "hostname")),
      IntegerOf(TableOf(Get(data, "system")), "gpu_wired_limit_mb"))
  }

  /** Everything that is wrong in the sections by themselves. */
  ghost function BadFields(data: Fields): set<Place> {
    (set s | s in data && s !in SECTIONS :: Place(s, ""))
    + BadPlaces("model", Get(data, "model"), MODEL)
    + BadPlaces("backend", Get(data, "backend"), BACKEND)
    + BadPlaces("gateway", Get(data, "gateway"), GATEWAY)
    + BadPlaces("tunnel", Get(data, "tunnel"), TUNNEL)
    + BadPlaces("system", Get(data, "system"), SYSTEM)
  }

  /** What is wrong between the fields of a profile. */
  function Conflicts(p: Profile): set<Place> {
    (if p.backend.port == p.gateway.port then {Place("backend", "port")} else {})
    + (if p.gateway.minOutputTokens >= p.gateway.maxContext then {Place("gateway", "min_output_tokens")} else {})
    + (if p.gateway.minOutputTokens > p.gateway.maxOutputTokens then {Place("gateway", "min_output_tokens")} else {})
    + (if p.gateway.maxOutputTokens > p.gateway.maxContext then {Place("gateway", "max_output_tokens")} else {})
    + (if p.backend.metalMemoryLimit >= p.gpuWiredLimitMb * Sizes.MIB then {Place("backend", "metal_memory_limit")} else {})
  }

  method ReadModel(j: Json, errors: Errors) returns (id: string)
    modifies errors
    ensures id == TextOf(TableOf(j), "id")
    ensures Named(errors.list) == Named(old(errors.list)) + BadPlaces("model", j, MODEL)
  {
    hide Named, BadAmong, BadPlaces, TextOf, TableOf;
    ghost var start := Named(errors.list);
    var s := new Section("model", j, errors, MODEL);
    id := s.Text("id", AnyText);
    s.Finish(start, j);
  }

  /** The rules one by one. */
  lemma BackendRules()
    ensures BACKEND.Keys == SAMPLING_KEYS + {
      "port", "prefill_step_size", "prompt_cache_size", "prompt_cache_bytes", "metal_memory_limit",
      "tool_parser", "enable_thinking", "start_timeout_seconds"}
    ensures BACKEND["port"] == Rule.Integer(1024, Some(65535))
    ensures BACKEND["prefill_step_size"] == BACKEND["start_timeout_seconds"] == Rule.Integer(1, None)
    ensures BACKEND["prompt_cache_size"] == Rule.Integer(0, None)
    ensures BACKEND["prompt_cache_bytes"] == BACKEND["metal_memory_limit"] == Rule.Size
    ensures BACKEND["tool_parser"] == Rule.Text(ToolParser) && BACKEND["enable_thinking"] == Rule.Flag
    ensures BACKEND["temperature"] == BACKEND["thinking_temperature"] == Rule.Number(0.0, 2.0)
    ensures BACKEND["top_p"] == BACKEND["thinking_top_p"] == Rule.Number(0.0, 1.0)
    ensures BACKEND["top_k"] == BACKEND["thinking_top_k"] == Rule.Integer(0, None)
  {
  }

  const SAMPLING_KEYS := {
    "temperature", "top_p", "top_k", "thinking_temperature", "thinking_top_p", "thinking_top_k"}

  method ReadSampling(s: Section, rest: BackendConfig) returns (backend: BackendConfig)
    requires s.Valid() && s.rules == BACKEND
    modifies s, s.errors
    ensures s.Valid() && s.seen == old(s.seen) + SAMPLING_KEYS
    ensures backend == rest.(
      temperature := NumberOf(s.table, "temperature"), topP := NumberOf(s.table, "top_p"),
      topK := IntegerOf(s.table, "top_k"), thinkingTemperature := NumberOf(s.table, "thinking_temperature"),
      thinkingTopP := NumberOf(s.table, "thinking_top_p"), thinkingTopK := IntegerOf(s.table, "thinking_top_k"))
  {
    hide Named, BadAmong, IntegerOf, NumberOf, BACKEND;
    BackendRules();
    var temperature := s.Number("temperature", 0.0, 2.0);
    var topP := s.Number("top_p", 0.0, 1.0);
    var topK := s.Integer("top_k", 0, None);
    var thinkingTemperature := s.Number("thinking_temperature", 0.0, 2.0);
    var thinkingTopP := s.Number("thinking_top_p", 0.0, 1.0);
    var thinkingTopK := s.Integer("thinking_top_k", 0, None);
    backend := rest.(
      temperature := temperature, topP := topP, topK := topK,
      thinkingTemperature := thinkingTemperature, thinkingTopP := thinkingTopP, thinkingTopK := thinkingTopK);
  }

  method ReadBackend(j: Json, errors: Errors) returns (backend: BackendConfig)
    modifies errors
    ensures backend == BackendOf(TableOf(j))
    ensures Named(errors.list) == Named(old(errors.list)) + BadPlaces("backend", j, BACKEND)
  {
    hide Named, BadAmong, BadPlaces, IntegerOf, NumberOf, TextOf, FlagOf, SizeOf, TableOf, BACKEND;
    BackendRules();
    ghost var start := Named(errors.list);
    var s := new Section("backend", j, errors, BACKEND);
    var port := s.Integer("port", 1024, Some(65535));
    var prefill := s.Integer("prefill_step_size", 1, None);
    var cacheSize := s.Integer("prompt_cache_size", 0, None);
    var cacheBytes := s.Size("prompt_cache_bytes");
    var metal := s.Size("metal_memory_limit");
    var parser := s.Text("tool_parser", ToolParser);
    var thinking := s.Flag("enable_thinking");
    backend := BackendConfig(port, prefill, cacheSize, cacheBytes, metal, parser, thinking,
      0.0, 0.0, 0, 0.0, 0.0, 0, 0);
    backend := ReadSampling(s, backend);
    var timeout := s.Integer("start_timeout_seconds", 1, None);
    backend := backend.(startTimeout := timeout);
    s.Finish(start, j);
  }

  lemma GatewayRules()
    ensures GATEWAY.Keys == {
      "port", "model_name", "max_context", "max_output_tokens", "min_output_tokens", "queue_size",
      "heartbeat_seconds"}
    ensures GATEWAY["port"] == Rule.Integer(1024, Some(65535))
    ensures GATEWAY["model_name"] == Rule.Text(ModelName)
    ensures GATEWAY["max_context"] == GATEWAY["max_output_tokens"] == GATEWAY["min_output_tokens"]
    ensures GATEWAY["max_context"] == Rule.Integer(1, None)
    ensures GATEWAY["queue_size"] == Rule.Integer(0, None)
    ensures GATEWAY["heartbeat_seconds"] == Rule.Integer(1, Some(IDLE_TIMEOUT - 1))
  {
  }

  method ReadGateway(j: Json, errors: Errors) returns (gateway: GatewayConfig)
    modifies errors
    ensures gateway == GatewayOf(TableOf(j))
    ensures Named(errors.list) == Named(old(errors.list)) + BadPlaces("gateway", j, GATEWAY)
  {
    hide Named, BadAmong, BadPlaces, IntegerOf, TextOf, TableOf, GATEWAY;
    GatewayRules();
    ghost var start := Named(errors.list);
    var s := new Section("gateway", j, errors, GATEWAY);
    var port := s.Integer("port", 1024, Some(65535));
    var model := s.Text("model_name", ModelName);
    var context := s.Integer("max_context", 1, None);
    var output := s.Integer("max_output_tokens", 1, None);
    var least := s.Integer("min_output_tokens", 1, None);
    var queue := s.Integer("queue_size", 0, None);
    var heartbeat := s.Integer("heartbeat_seconds", 1, Some(IDLE_TIMEOUT - 1));
    gateway := GatewayConfig(port, model, context, output, least, queue, heartbeat);
    s.Finish(start, j);
  }

  method ReadTunnel(j: Json, errors: Errors) returns (tunnel: TunnelConfig)
    modifies errors
    ensures tunnel == TunnelConfig(FlagOf(TableOf(j), "enabled"), TextOf(TableOf(j), "hostname"))
    ensures Named(errors.list) == Named(old(errors.list)) + BadPlaces("tunnel", j, TUNNEL)
  {
    hide Named, BadAmong, BadPlaces, FlagOf, TextOf, TableOf;
    ghost var start := Named(errors.list);
    var s := new Section("tunnel", j, errors, TUNNEL);
    var enabled := s.Flag("enabled");
    var hostname := s.Text("hostname", Hostname);
    tunnel := TunnelConfig(enabled, hostname);
    s.Finish(start, j);
  }

  method ReadSystem(j: Json, errors: Errors) returns (wired: int)
    modifies errors
    ensures wired == IntegerOf(TableOf(j), "gpu_wired_limit_mb")
    ensures Named(errors.list) == Named(old(errors.list)) + BadPlaces("system", j, SYSTEM)
  {
    hide Named, BadAmong, BadPlaces, IntegerOf, TableOf;
    ghost var start := Named(errors.list);
    var s := new Section("system", j, errors, SYSTEM);
    wired := s.Integer("gpu_wired_limit_mb", 1, None);
    s.Finish(start, j);
  }

  /** The rules between fields. */
  method CheckConflicts(p: Profile, errors: Errors)
    modifies errors
    ensures Named(errors.list) == Named(old(errors.list)) + Conflicts(p)
  {
    hide Named;
    if p.backend.port == p.gateway.port { errors.Add("backend", "port", Conflict); }
    if p.gateway.minOutputTokens >= p.gateway.maxContext {
      errors.Add("gateway", "min_output_tokens", Conflict);
    }
    if p.gateway.minOutputTokens > p.gateway.maxOutputTokens {
      errors.Add("gateway", "min_output_tokens", Conflict);
    }
    if p.gateway.maxOutputTokens > p.gateway.maxContext {
      errors.Add("gateway", "max_output_tokens", Conflict);
    }
    if p.backend.metalMemoryLimit >= p.gpuWiredLimitMb * Sizes.MIB {
      errors.Add("backend", "metal_memory_limit", Conflict);
    }
  }

  /**
   * `parse_profile`. It accepts exactly the files without a bad field and without a conflict,
   * and a refusal names exactly the bad fields, or if there is none the conflicts.
   */
  method ParseProfile(name: string, data: Fields) returns (r: Result<Profile, seq<Problem>>)
    ensures r.Ok? <==> BadFields(data) == {} && Conflicts(ProfileOf(name, data)) == {}
    ensures r.Ok? ==> r.value == ProfileOf(name, data)
    ensures r.Err? ==> Named(r.error) == if BadFields(data) != {} then BadFields(data) else Conflicts(ProfileOf(name, data))
  {
    hide BadPlaces, BackendOf, GatewayOf, IntegerOf, FlagOf, TextOf, TableOf, Conflicts;
    var errors := new Errors();
    var unknown := Order.Sorted(data.Keys - SECTIONS);
    for i := 0 to |unknown|
      invariant Named(errors.list) == set s | s in unknown[..i] :: Place(s, "")
    {
      hide Named;
      errors.Add(unknown[i], "", NoSection);
      assert unknown[..i + 1] == unknown[..i] + [unknown[i]];
    }
    hide Named;
    assert Named(errors.list) == set s | s in data && s !in SECTIONS :: Place(s, "") by {
      assert unknown[..|unknown|] == unknown;
      assert forall k :: k in unknown <==> k in Order.Elements(unknown);
    }
    var model := ReadModel(Get(data, "model"), errors);
    var backend := ReadBackend(Get(data, "backend"), errors);
    var gateway := ReadGateway(Get(data, "gateway"), errors);
    var tunnel := ReadTunnel(Get(data, "tunnel"), errors);
    var wired := ReadSystem(Get(data, "system"), errors);
    var profile := Profile(name, model, backend, gateway, tunnel, wired);
    assert Named(errors.list) == BadFields(data);
    hide BadFields;
    NoneNamed(errors.list);
    if errors.list == [] {
      CheckConflicts(profile, errors);
      NoneNamed(errors.list);
    }
    r := if errors.list == [] then Ok(profile) else Err(errors.list);
  }

  /** TOML has no null. */
  ghost predicate NoNulls(data: Fields) {
    forall s, key | s in data && data[s].Obj? && key in data[s].fields :: !data[s].fields[key].Null?
  }

  /** What the rest of the program relies on in a profile. */
  ghost predicate Sound(p: Profile) {
    && p.model != "" && p.backend.port != p.gateway.port
    && 1024 <= p.backend.port <= 65535 && 1024 <= p.gateway.port <= 65535
    && p.backend.prefillStepSize >= 1 && p.backend.startTimeout >= 1
    && p.backend.promptCacheSize >= 0 && p.backend.promptCacheBytes > 0
    && p.backend.toolParser != "" && Passes(ToolParser, p.backend.toolParser)
    && 0 < p.backend.metalMemoryLimit < p.gpuWiredLimitMb * Sizes.MIB
    && 0.0 <= p.backend.temperature <= 2.0 && 0.0 <= p.backend.topP <= 1.0 && p.backend.topK >= 0
    && 0.0 <= p.backend.thinkingTemperature <= 2.0 && 0.0 <= p.backend.thinkingTopP <= 1.0
    && p.backend.thinkingTopK >= 0
    && 1 <= p.gateway.minOutputTokens <= p.gateway.maxOutputTokens <= p.gateway.maxContext
    && p.gateway.minOutputTokens < p.gateway.maxContext
    && p.gateway.queueSize >= 0 && 1 <= p.gateway.heartbeat < IDLE_TIMEOUT
    && p.gateway.modelName != "" && Passes(ModelName, p.gateway.modelName)
    && p.tunnel.hostname != "" && Passes(Hostname, p.tunnel.hostname)
  }

  lemma BackendInBounds(t: Fields)
    requires forall key | key in BACKEND :: Good(BACKEND[key], t, key) && !t[key].Null?
    ensures var b := BackendOf(t);
      && 1024 <= b.port <= 65535 && b.prefillStepSize >= 1 && b.startTimeout >= 1 && b.metalMemoryLimit > 0
      && b.promptCacheSize >= 0 && b.promptCacheBytes > 0 && b.toolParser != "" && Passes(ToolParser, b.toolParser)
      && 0.0 <= b.temperature <= 2.0 && 0.0 <= b.topP <= 1.0 && b.topK >= 0
      && 0.0 <= b.thinkingTemperature <= 2.0 && 0.0 <= b.thinkingTopP <= 1.0 && b.thinkingTopK >= 0
  {
    hide BACKEND, Sizes.ParseSize, Passes;
    BackendRules();
  }

  lemma GatewayInBounds(t: Fields)
    requires forall key | key in GATEWAY :: Good(GATEWAY[key], t, key) && !t[key].Null?
    ensures var g := GatewayOf(t);
      && 1024 <= g.port <= 65535 && g.maxContext >= 1 && g.maxOutputTokens >= 1 && g.minOutputTokens >= 1
      && g.queueSize >= 0 && 1 <= g.heartbeat < IDLE_TIMEOUT && g.modelName != "" && Passes(ModelName, g.modelName)
  {
    hide Sizes.ParseSize, Passes;
    hide GATEWAY;
    GatewayRules();
  }

  /** Acceptance implies every bound and every rule between fields. */
  lemma AcceptedIsSound(name: string, data: Fields)
    requires NoNulls(data) && BadFields(data) == {} && Conflicts(ProfileOf(name, data)) == {}
    ensures Sound(ProfileOf(name, data))
  {
    hide BadPlaces, Passes, BackendOf, GatewayOf, Sizes.ParseSize, BACKEND, GATEWAY;
    NothingBad("model", Get(data, "model"), MODEL);
    NothingBad("backend", Get(data, "backend"), BACKEND);
    NothingBad("gateway", Get(data, "gateway"), GATEWAY);
    NothingBad("tunnel", Get(data, "tunnel"), TUNNEL);
    NothingBad("system", Get(data, "system"), SYSTEM);
    BackendInBounds(TableOf(Get(data, "backend")));
    GatewayInBounds(TableOf(Get(data, "gateway")));
    assert "id" in MODEL && "hostname" in TUNNEL && "gpu_wired_limit_mb" in SYSTEM;
  }
}
