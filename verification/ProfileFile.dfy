/**
 * A profile as a file: which key every field of a profile has, written down once more, and that
 * exactly the sound profiles come from files that are accepted.
 */
module ProfileFile {
  import opened Wrappers
  import opened Json
  import opened Section
  import opened Config
  import Sizes

  function Bytes(n: nat): Json {
    Str(Sizes.Decimal(n) + "B")
  }

  function BackendTable(b: BackendConfig): Fields
    requires b.promptCacheBytes >= 0
  {
    map[
      "port" := Int(b.port),
      "prefill_step_size" := Int(b.prefillStepSize),
      "prompt_cache_size" := Int(b.promptCacheSize),
      "prompt_cache_bytes" := Bytes(b.promptCacheBytes),
      "metal_memory_limit" := Bytes(b.metalMemoryLimit),
      "tool_parser" := Str(b.toolParser),
      "enable_thinking" := Bool(b.enableThinking),
      "temperature" := Float(b.temperature),
      "top_p" := Float(b.topP),
      "top_k" := Int(b.topK),
      "thinking_temperature" := Float(b.thinkingTemperature),
      "thinking_top_p" := Float(b.thinkingTopP),
      "thinking_top_k" := Int(b.thinkingTopK),
      "start_timeout_seconds" := Int(b.startTimeout)]
  }

  function GatewayTable(g: GatewayConfig): Fields {
    map[
      "port" := Int(g.port),
      "model_name" := Str(g.modelName),
      "max_context" := Int(g.maxContext),
      "max_output_tokens" := Int(g.maxOutputTokens),
      "min_output_tokens" := Int(g.minOutputTokens),
      "queue_size" := Int(g.queueSize),
      "heartbeat_seconds" := Int(g.heartbeat)]
  }

  function ModelTable(p: Profile): Fields {
    map["id" := Str(p.model)]
  }

  function TunnelTable(t: TunnelConfig): Fields {
    map["enabled" := Bool(t.enabled), "hostname" := Str(t.hostname)]
  }

  function SystemTable(p: Profile): Fields {
    map["gpu_wired_limit_mb" := Int(p.gpuWiredLimitMb)]
  }

  /** The file of a profile. */
  function Data(p: Profile): Fields {
    map[
      "model" := Obj(ModelTable(p)),
      "backend" := Obj(BackendTable(p.backend)),
      "gateway" := Obj(GatewayTable(p.gateway)),
      "tunnel" := Obj(TunnelTable(p.tunnel)),
      "system" := Obj(SystemTable(p))]
  }

  lemma BytesReadBack(n: nat)
    ensures Sizes.ParseSize(Sizes.Decimal(n) + "B") == Some(n)
  {
    Sizes.UnitsByName("B");
    hide Sizes.ParseSize, Sizes.UnitAfter;
    Sizes.WholeReadsBack(n, "B");
  }

  lemma BackendIsItsTable(b: BackendConfig)
    ensures BackendOf(BackendTable(b)) == b
  {
    BytesReadBack(b.promptCacheBytes);
    BytesReadBack(b.metalMemoryLimit);
    hide Sizes.ParseSize, Sizes.Decimal;
  }

  /** The bounds of the backend section. */
  predicate BackendSound(b: BackendConfig) {
    && 1024 <= b.port <= 65535 && b.prefillStepSize >= 1 && b.startTimeout >= 1
    && b.promptCacheSize >= 0 && b.promptCacheBytes > 0 && b.metalMemoryLimit > 0
    && b.toolParser != "" && Passes(ToolParser, b.toolParser)
    && 0.0 <= b.temperature <= 2.0 && 0.0 <= b.topP <= 1.0 && b.topK >= 0
    && 0.0 <= b.thinkingTemperature <= 2.0 && 0.0 <= b.thinkingTopP <= 1.0 && b.thinkingTopK >= 0
  }

  lemma IntegersAreGood(b: BackendConfig)
    requires BackendSound(b)
    ensures var t := BackendTable(b);
      && Good(Rule.Integer(1024, Some(65535)), t, "port") && Good(Rule.Integer(1, None), t, "prefill_step_size")
      && Good(Rule.Integer(0, None), t, "prompt_cache_size") && Good(Rule.Integer(0, None), t, "top_k")
      && Good(Rule.Integer(0, None), t, "thinking_top_k") && Good(Rule.Integer(1, None), t, "start_timeout_seconds")
      && Good(Rule.Flag, t, "enable_thinking") && Good(Rule.Text(ToolParser), t, "tool_parser")
  {
    hide Passes;
  }

  lemma NumbersAreGood(b: BackendConfig)
    requires BackendSound(b)
    ensures var t := BackendTable(b);
      && Good(Rule.Number(0.0, 2.0), t, "temperature") && Good(Rule.Number(0.0, 2.0), t, "thinking_temperature")
      && Good(Rule.Number(0.0, 1.0), t, "top_p") && Good(Rule.Number(0.0, 1.0), t, "thinking_top_p")
  {
    hide Passes;
  }

  lemma SizesAreGood(b: BackendConfig)
    requires BackendSound(b)
    ensures Good(Rule.Size, BackendTable(b), "prompt_cache_bytes") && Good(Rule.Size, BackendTable(b), "metal_memory_limit")
  {
    BytesReadBack(b.promptCacheBytes);
    BytesReadBack(b.metalMemoryLimit);
    hide Sizes.ParseSize, Sizes.Decimal, Passes;
  }

  lemma BackendKeys(b: BackendConfig)
    ensures BackendTable(b).Keys == SAMPLING_KEYS + {
      "port", "prefill_step_size", "prompt_cache_size", "prompt_cache_bytes", "metal_memory_limit",
      "tool_parser", "enable_thinking", "start_timeout_seconds"}
    ensures forall key | key in BackendTable(b) :: !BackendTable(b)[key].Null?
  {
    hide Sizes.Decimal;
  }

  lemma SamplingIsGood(b: BackendConfig, key: string)
    requires BackendSound(b) && key in SAMPLING_KEYS
    ensures key in BACKEND && Good(BACKEND[key], BackendTable(b), key)
  {
    BackendRules();
    IntegersAreGood(b);
    NumbersAreGood(b);
    hide BACKEND, Good, BackendTable, BackendSound;
  }

  lemma OtherBackendIsGood(b: BackendConfig, key: string)
    requires BackendSound(b) && key in {
      "port", "prefill_step_size", "prompt_cache_size", "prompt_cache_bytes", "metal_memory_limit",
      "tool_parser", "enable_thinking", "start_timeout_seconds"}
    ensures key in BACKEND && Good(BACKEND[key], BackendTable(b), key)
  {
    BackendRules();
    IntegersAreGood(b);
    SizesAreGood(b);
    hide BACKEND, Good, BackendTable, BackendSound;
  }

  lemma OneIsGood(b: BackendConfig, key: string)
    requires BackendSound(b) && key in BACKEND
    ensures Good(BACKEND[key], BackendTable(b), key)
  {
    hide Good, BackendTable, BackendSound, BACKEND;
    BackendRules();
    hide SAMPLING_KEYS;
    if key in SAMPLING_KEYS { SamplingIsGood(b, key); } else { OtherBackendIsGood(b, key); }
  }

  lemma SameKeys(b: BackendConfig)
    ensures BackendTable(b).Keys == BACKEND.Keys
  {
    hide BackendTable, BACKEND, SAMPLING_KEYS;
    BackendRules();
    BackendKeys(b);
  }

  lemma BackendIsGood(b: BackendConfig)
    requires BackendSound(b)
    ensures BadPlaces("backend", Obj(BackendTable(b)), BACKEND) == {}
  {
    hide BadPlaces, Good, BackendTable, BackendSound, BACKEND;
    NothingBad("backend", Obj(BackendTable(b)), BACKEND);
    SameKeys(b);
    forall key | key in BACKEND ensures Good(BACKEND[key], BackendTable(b), key) {
      OneIsGood(b, key);
    }
  }

  lemma GatewayIsGood(g: GatewayConfig)
    requires 1024 <= g.port <= 65535 && g.maxContext >= 1 && g.maxOutputTokens >= 1 && g.minOutputTokens >= 1
    requires g.queueSize >= 0 && 1 <= g.heartbeat < IDLE_TIMEOUT && g.modelName != "" && Passes(ModelName, g.modelName)
    ensures BadPlaces("gateway", Obj(GatewayTable(g)), GATEWAY) == {}
    ensures GatewayOf(GatewayTable(g)) == g
  {
    GatewayRules();
    NothingBad("gateway", Obj(GatewayTable(g)), GATEWAY);
    hide GATEWAY, BadPlaces, Passes;
    forall key | key in GATEWAY ensures Good(GATEWAY[key], GatewayTable(g), key) {
    }
  }

  lemma OthersAreGood(p: Profile)
    requires p.model != "" && p.gpuWiredLimitMb >= 1 && p.tunnel.hostname != "" && Passes(Hostname, p.tunnel.hostname)
    ensures BadPlaces("model", Obj(ModelTable(p)), MODEL) == {}
    ensures BadPlaces("tunnel", Obj(TunnelTable(p.tunnel)), TUNNEL) == {}
    ensures BadPlaces("system", Obj(SystemTable(p)), SYSTEM) == {}
  {
    NothingBad("model", Obj(ModelTable(p)), MODEL);
    NothingBad("tunnel", Obj(TunnelTable(p.tunnel)), TUNNEL);
    NothingBad("system", Obj(SystemTable(p)), SYSTEM);
    assert Passes(AnyText, p.model);
    hide BadPlaces, Passes;
  }

  lemma DataIsTheProfile(p: Profile)
    ensures ProfileOf(p.name, Data(p)) == p
  {
    BackendIsItsTable(p.backend);
    hide BackendOf, BackendTable;
    assert GatewayOf(GatewayTable(p.gateway)) == p.gateway;
  }

  lemma DataHasNoNulls(p: Profile)
    ensures NoNulls(Data(p))
  {
    BackendKeys(p.backend);
    hide BackendTable;
    assert forall key | key in GatewayTable(p.gateway) :: !GatewayTable(p.gateway)[key].Null?;
    hide GatewayTable;
  }

  lemma SectionsOf(p: Profile)
    ensures var d := Data(p);
      && d.Keys == SECTIONS
      && Get(d, "model") == Obj(ModelTable(p)) && Get(d, "backend") == Obj(BackendTable(p.backend))
      && Get(d, "gateway") == Obj(GatewayTable(p.gateway)) && Get(d, "tunnel") == Obj(TunnelTable(p.tunnel))
      && Get(d, "system") == Obj(SystemTable(p))
  {
    hide ModelTable, BackendTable, GatewayTable, TunnelTable, SystemTable;
  }

  lemma NothingIsBad(p: Profile)
    requires BackendSound(p.backend) && p.model != "" && p.gpuWiredLimitMb >= 1
    requires p.tunnel.hostname != "" && Passes(Hostname, p.tunnel.hostname)
    requires BadPlaces("gateway", Obj(GatewayTable(p.gateway)), GATEWAY) == {}
    ensures BadFields(Data(p)) == {}
  {
    SectionsOf(p);
    BackendIsGood(p.backend);
    OthersAreGood(p);
    hide Data, BadPlaces, BackendSound, Passes;
  }

  /** Every sound profile has a file that is accepted and means it, field by field. */
  lemma SoundIsAccepted(p: Profile)
    requires Sound(p)
    ensures BadFields(Data(p)) == {} && Conflicts(ProfileOf(p.name, Data(p))) == {}
    ensures ProfileOf(p.name, Data(p)) == p && NoNulls(Data(p))
  {
    hide BadFields, Data, ProfileOf, NoNulls, Passes, GatewayTable, BadPlaces, GatewayOf;
    DataIsTheProfile(p);
    DataHasNoNulls(p);
    GatewayIsGood(p.gateway);
    WiredIsPositive(p);
    NothingIsBad(p);
  }

  lemma WiredIsPositive(p: Profile)
    requires 0 < p.backend.metalMemoryLimit < p.gpuWiredLimitMb * Sizes.MIB
    ensures p.gpuWiredLimitMb >= 1
  {
  }

  /** The sound profiles are exactly those that some accepted file means. */
  lemma SoundIffAccepted(p: Profile)
    ensures Sound(p) <==>
      exists data: Fields :: NoNulls(data) && BadFields(data) == {} && Conflicts(ProfileOf(p.name, data)) == {} && ProfileOf(p.name, data) == p
  {
    hide BadFields, Conflicts, ProfileOf, NoNulls, Sound, Data;
    if Sound(p) { SoundIsAccepted(p); }
    if data: Fields :| NoNulls(data) && BadFields(data) == {} && Conflicts(ProfileOf(p.name, data)) == {} && ProfileOf(p.name, data) == p {
      AcceptedIsSound(p.name, data);
    }
  }

  lemma SectionsAreGood(data: Fields)
    requires BadFields(data) == {}
    ensures BadPlaces("model", Get(data, "model"), MODEL) == {} && BadPlaces("backend", Get(data, "backend"), BACKEND) == {}
    ensures BadPlaces("gateway", Get(data, "gateway"), GATEWAY) == {} && BadPlaces("tunnel", Get(data, "tunnel"), TUNNEL) == {}
    ensures BadPlaces("system", Get(data, "system"), SYSTEM) == {}
  {
    hide BadPlaces, BACKEND, GATEWAY, MODEL, TUNNEL, SYSTEM;
  }

  /** This section is there, with the keys of that table. */
  predicate HasKeys(data: Fields, section: string, table: Fields) {
    section in data && data[section].Obj? && data[section].fields.Keys == table.Keys
  }

  /** An accepted file has every section and every field of a profile, and no other. */
  lemma AcceptedHasTheKeys(data: Fields, p: Profile)
    requires BadFields(data) == {}
    ensures data.Keys == {"model", "backend", "gateway", "tunnel", "system"}
    ensures HasKeys(data, "model", ModelTable(p)) && HasKeys(data, "backend", BackendTable(p.backend))
    ensures HasKeys(data, "gateway", GatewayTable(p.gateway)) && HasKeys(data, "tunnel", TunnelTable(p.tunnel))
    ensures HasKeys(data, "system", SystemTable(p))
  {
    hide BadFields, BadPlaces, BACKEND, GATEWAY, MODEL, TUNNEL, SYSTEM, BackendTable, GatewayTable, ModelTable, TunnelTable, SystemTable;
    SectionsAreGood(data);
    OnlySections(data);
    SameKeys(p.backend);
    OtherKeys(p);
    SectionKeys("model", Get(data, "model"), MODEL);
    SectionKeys("backend", Get(data, "backend"), BACKEND);
    SectionKeys("gateway", Get(data, "gateway"), GATEWAY);
    SectionKeys("tunnel", Get(data, "tunnel"), TUNNEL);
    SectionKeys("system", Get(data, "system"), SYSTEM);
  }

  lemma SectionKeys(section: string, j: Json, rules: Rules)
    ensures BadPlaces(section, j, rules) == {} ==> j.Obj? && j.fields.Keys == rules.Keys
  {
    NothingBad(section, j, rules);
  }

  lemma OnlySections(data: Fields)
    requires BadFields(data) == {}
    ensures data.Keys <= SECTIONS
  {
    forall s | s in data ensures s in SECTIONS {
      assert s !in SECTIONS ==> Place(s, "") in BadFields(data);
    }
  }

  lemma OtherKeys(p: Profile)
    ensures GatewayTable(p.gateway).Keys == GATEWAY.Keys && ModelTable(p).Keys == MODEL.Keys
    ensures TunnelTable(p.tunnel).Keys == TUNNEL.Keys && SystemTable(p).Keys == SYSTEM.Keys
  {
    GatewayRules();
    hide GATEWAY;
  }
}
