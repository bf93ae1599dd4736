/** What a deployed engine reads when it starts (cmd/vertex-runtime/config.go, pack.go). */
module Runtime {
  import opened Texts
  import opened Inputs
  import opened EngineSpecs
  import GcsUri

  const CONTRACT_PORT := 8080
  const PACK_FILE_NAME := "pack.json"

  datatype RuntimeConfig = RuntimeConfig(
    packJson: string,
    packUri: string,
    agentName: string,
    providersJson: string,
    project: string,
    location: string,
    port: int,
    otlpEndpoint: string,
    tracingEnabled: bool,
    toolSpecsJson: string,
    engineId: string
  )

  datatype ConfigError = NoPack | BadTracingFlag(raw: string)

  // An unset variable reads as the empty string.
  function Getenv(env: Env, name: EnvName): string {
    if name in env then env[name] else ""
  }

  function FirstSet(env: Env, names: seq<EnvName>): string {
    if names == [] then "" else if Getenv(env, names[0]) != "" then Getenv(env, names[0]) else FirstSet(env, names[1..])
  }

  method FirstEnv(env: Env, names: seq<EnvName>) returns (v: string)
    ensures v == FirstSet(env, names)
  {
    var i := 0;
    while i < |names|
      invariant 0 <= i <= |names|
      invariant FirstSet(env, names[i..]) == FirstSet(env, names)
    {
      assert names[i..][0] == names[i] && names[i..][1..] == names[i + 1..];
      v := Getenv(env, names[i]);
      if v != "" {
        return;
      }
      i := i + 1;
    }
    v := "";
  }

  // strconv.ParseBool
  function ParseBool(raw: string): Option<bool> {
    if raw in {"1", "t", "T", "TRUE", "true", "True"} then Some(true)
    else if raw in {"0", "f", "F", "FALSE", "false", "False"} then Some(false)
    else None
  }

  function TracingFlag(env: Env): Option<bool> {
    if Getenv(env, TracingEnabled) == "" then Some(false) else ParseBool(Getenv(env, TracingEnabled))
  }

  function ReadConfig(env: Env, tracing: bool): RuntimeConfig {
    RuntimeConfig(
      Getenv(env, PackJson),
      Getenv(env, PackUri),
      Getenv(env, AgentName),
      Getenv(env, Providers),
      FirstSet(env, [Project, CloudProject]),
      FirstSet(env, [Location, EngineLocation, CloudLocation]),
      CONTRACT_PORT,
      Getenv(env, OtlpEndpoint),
      tracing,
      Getenv(env, ToolSpecs),
      Getenv(env, EngineId))
  }

  // Exactly one pack source is asked for, but a missing one is the only error.
  function ConfigOf(env: Env): Result<RuntimeConfig, ConfigError> {
    if Getenv(env, PackJson) == "" && Getenv(env, PackUri) == "" then Err(NoPack)
    else if TracingFlag(env).None? then Err(BadTracingFlag(Getenv(env, TracingEnabled)))
    else Ok(ReadConfig(env, TracingFlag(env).value))
  }

  // Each field is the variable of its name, an unset one reading as empty; the project
  // and the location fall back on the platform's names, in this order.
  ghost predicate Reflects(env: Env, cfg: RuntimeConfig) {
    var get := (k: EnvName) => if k in env then env[k] else "";
    && cfg.packJson == get(PackJson) && cfg.packUri == get(PackUri) && cfg.agentName == get(AgentName)
    && cfg.providersJson == get(Providers) && cfg.otlpEndpoint == get(OtlpEndpoint)
    && cfg.toolSpecsJson == get(ToolSpecs) && cfg.engineId == get(EngineId) && cfg.port == 8080
    && cfg.project == (if get(Project) != "" then get(Project) else get(CloudProject))
    && cfg.location == (if get(Location) != "" then get(Location)
                        else if get(EngineLocation) != "" then get(EngineLocation) else get(CloudLocation))
    && (cfg.tracingEnabled <==> get(TracingEnabled) in {"1", "t", "T", "TRUE", "true", "True"})
  }

  ghost predicate BadFlag(env: Env) {
    TracingEnabled in env
    && env[TracingEnabled] !in {"", "1", "t", "T", "TRUE", "true", "True", "0", "f", "F", "FALSE", "false", "False"}
  }

  ghost predicate PackNamed(env: Env) {
    (PackJson in env && env[PackJson] != "") || (PackUri in env && env[PackUri] != "")
  }

  lemma ConfigReflects(env: Env)
    ensures ConfigOf(env).Ok? ==> Reflects(env, ConfigOf(env).value)
    ensures ConfigOf(env).Ok? <==> PackNamed(env) && !BadFlag(env)
    ensures !PackNamed(env) ==> ConfigOf(env) == Err(NoPack)
  {
    FirstOfTwo(env, Project, CloudProject);
    FirstOfThree(env, Location, EngineLocation, CloudLocation);
    hide FirstSet;
  }

  method LoadConfig(env: Env) returns (r: Result<RuntimeConfig, ConfigError>)
    ensures r == ConfigOf(env)
    ensures r.Ok? ==> Reflects(env, r.value)
    ensures r.Ok? <==> PackNamed(env) && !BadFlag(env)
  {
    ConfigReflects(env);
    hide Reflects, BadFlag, PackNamed;
    var project := FirstEnv(env, [Project, CloudProject]);
    var location := FirstEnv(env, [Location, EngineLocation, CloudLocation]);
    var cfg := RuntimeConfig(
      Getenv(env, PackJson), Getenv(env, PackUri), Getenv(env, AgentName), Getenv(env, Providers),
      project, location, CONTRACT_PORT, "", false, "", Getenv(env, EngineId));
    if cfg.packJson == "" && cfg.packUri == "" {
      return Err(NoPack);
    }
    cfg := cfg.(otlpEndpoint := Getenv(env, OtlpEndpoint));
    cfg := cfg.(toolSpecsJson := Getenv(env, ToolSpecs));
    var raw := Getenv(env, TracingEnabled);
    if raw != "" {
      var enabled := ParseBool(raw);
      if enabled.None? {
        return Err(BadTracingFlag(raw));
      }
      cfg := cfg.(tracingEnabled := enabled.value);
    }
    r := Ok(cfg);
  }

  // ---- The pack file ----

  datatype PackError = NoFetcher | FetchFailed | WriteFailed

  type Objects = map<GcsUri.ObjectKey, string>

  type Fetcher = string -> Option<string>

  // Reading an object by URI: it splits, and something is stored there.
  function FetchFrom(objects: Objects): Fetcher {
    uri =>
      match GcsUri.ParseGcsUri(uri)
      case Err(_) => None
      case Ok(key) => if key in objects then Some(objects[key]) else None
  }

  // An inline pack wins over a URI.
  function PackData(cfg: RuntimeConfig, fetch: Option<Fetcher>): Result<string, PackError> {
    if cfg.packJson != "" then Ok(cfg.packJson)
    else if fetch.None? then Err(NoFetcher)
    else
      var fetched := fetch.value(cfg.packUri);
      if fetched.None? then Err(FetchFailed) else Ok(fetched.value)
  }

  class Disk {
    var files: map<string, string>
    const writable: bool

    constructor (writable: bool)
      ensures files == map[] && this.writable == writable
    {
      files := map[];
      this.writable := writable;
    }

    method WriteFile(path: string, data: string) returns (ok: bool)
      modifies this
      ensures ok == writable
      ensures files == if ok then old(files)[path := data] else old(files)
    {
      if writable {
        files := files[path := data];
      }
      ok := writable;
    }
  }

  // The path written holds exactly the pack; on any error nothing is written.
  method ResolvePackFile(cfg: RuntimeConfig, disk: Disk, dir: string, fetch: Option<Fetcher>)
    returns (r: Result<string, PackError>)
    modifies disk
    ensures r.Ok? <==> PackData(cfg, fetch).Ok? && disk.writable
    ensures r.Ok? ==> r.value == dir + "/pack.json"
    ensures r.Ok? && cfg.packJson != "" ==> disk.files == old(disk.files)[r.value := cfg.packJson]
    ensures r.Ok? && cfg.packJson == ""
            ==> && fetch.Some? && fetch.value(cfg.packUri).Some?
                && disk.files == old(disk.files)[r.value := fetch.value(cfg.packUri).value]
    ensures r.Err? <==> || (cfg.packJson == "" && (fetch.None? || fetch.value(cfg.packUri).None?))
                        || !disk.writable
    ensures r.Ok? ==> disk.files == old(disk.files)[r.value := PackData(cfg, fetch).value]
    ensures r.Err? ==> disk.files == old(disk.files)
  {
    var data := cfg.packJson;
    if |data| == 0 {
      if fetch.None? {
        return Err(NoFetcher);
      }
      var fetched := fetch.value(cfg.packUri);
      if fetched.None? {
        return Err(FetchFailed);
      }
      data := fetched.value;
    }
    var path := dir + "/" + PACK_FILE_NAME;
    var ok := disk.WriteFile(path, data);
    r := if ok then Ok(path) else Err(WriteFailed);
  }

  // ---- What a built environment reads back as ----

  function Layer(input: EngineInput, base: Env, k: EnvName): Env {
    if k.PackJson? || k.PackUri? then PackEnv(input) else if k.TracingEnabled? then TracingEnv(input.cfg) else base
  }

  // Each of the adapter's variables reads as the one layer that may set it says.
  lemma ReadsLayer(codec: Codec, input: EngineInput, agent: string, platform: Env, k: EnvName)
    requires EnvBuildable(input) && NoReservedNames(platform) && ReservedName(k)
    ensures Getenv(BuiltEnv(codec, input, agent) + platform, k)
            == Getenv(Layer(input, BaseEnv(codec, input, agent), k), k)
  {
    EnvKeys(codec, input, agent);
    assert k !in input.cfg.env && k !in platform;
    hide BaseEnv, TracingEnv, PackEnv;
  }

  lemma BaseReads(codec: Codec, input: EngineInput, agent: string)
    ensures var base := BaseEnv(codec, input, agent);
            && Getenv(base, AgentName) == agent
            && Getenv(base, Providers) == codec.bindingsText(input.bindings)
            && Getenv(base, Project) == input.cfg.project
            && Getenv(base, Location) == input.cfg.location
            && Getenv(base, ToolSpecs) == input.toolSpecs
  {}

  lemma PackReads(input: EngineInput)
    ensures Getenv(PackEnv(input), PackJson) == (if input.delivery.inlined then input.packJson else "")
    ensures Getenv(PackEnv(input), PackUri) == (if input.delivery.inlined then "" else input.stagedPackUri)
  {}

  // How the adapter's variables read in the container.
  lemma BuiltReads(codec: Codec, input: EngineInput, agent: string, platform: Env)
    requires EnvBuildable(input) && NoReservedNames(platform)
    ensures var env := BuiltEnv(codec, input, agent) + platform;
            && Getenv(env, PackJson) == (if input.delivery.inlined then input.packJson else "")
            && Getenv(env, PackUri) == (if input.delivery.inlined then "" else input.stagedPackUri)
            && Getenv(env, AgentName) == agent
            && Getenv(env, Providers) == codec.bindingsText(input.bindings)
            && Getenv(env, Project) == input.cfg.project
            && Getenv(env, Location) == input.cfg.location
            && Getenv(env, ToolSpecs) == input.toolSpecs
  {
    BaseReads(codec, input, agent);
    PackReads(input);
    hide BuiltEnv, BaseEnv, TracingEnv, PackEnv, EnvBuildable, Getenv, NoReservedNames;
    ReadsLayer(codec, input, agent, platform, PackJson);
    ReadsLayer(codec, input, agent, platform, PackUri);
    ReadsLayer(codec, input, agent, platform, AgentName);
    ReadsLayer(codec, input, agent, platform, Providers);
    ReadsLayer(codec, input, agent, platform, Project);
    ReadsLayer(codec, input, agent, platform, Location);
    ReadsLayer(codec, input, agent, platform, ToolSpecs);
  }

  predicate Traced(cfg: Config) {
    cfg.observability.Some? && cfg.observability.value.tracingEnabled
  }

  lemma BuiltTraces(codec: Codec, input: EngineInput, agent: string, platform: Env)
    requires EnvBuildable(input) && NoReservedNames(platform)
    ensures var env := BuiltEnv(codec, input, agent) + platform;
            && TracingFlag(env) == Some(Traced(input.cfg))
            && (Traced(input.cfg) && OtlpEndpoint !in platform
                ==> Getenv(env, OtlpEndpoint) == input.cfg.observability.value.otlpEndpoint)
  {
    ReadsLayer(codec, input, agent, platform, TracingEnabled);
    EnvKeys(codec, input, agent);
    hide BaseEnv, PackEnv, ParseBool;
    TrueParses();
  }

  lemma TrueParses()
    ensures ParseBool("true") == Some(true)
  {}

  function OrElse(first: string, second: string): string {
    if first != "" then first else second
  }

  lemma FirstOfTwo(env: Env, a: EnvName, b: EnvName)
    ensures FirstSet(env, [a, b]) == OrElse(Getenv(env, a), Getenv(env, b))
  {
    assert [a, b][1..] == [b] && [b][1..] == [];
    assert FirstSet(env, [b]) == Getenv(env, b);
  }

  lemma FirstOfThree(env: Env, a: EnvName, b: EnvName, c: EnvName)
    ensures FirstSet(env, [a, b, c]) == OrElse(Getenv(env, a), OrElse(Getenv(env, b), Getenv(env, c)))
  {
    assert [a, b, c][1..] == [b, c];
    FirstOfTwo(env, b, c);
  }

  // Whatever the platform injects, a container started with a built environment reads
  // back the very inputs it was built from; the pack by value or by its URI.
  lemma ContainerReadsInputs(codec: Codec, input: EngineInput, agent: string, platform: Env)
    requires EnvBuildable(input) && (input.delivery.inlined ==> input.packJson != "") && NoReservedNames(platform)
    ensures var r := ConfigOf(BuiltEnv(codec, input, agent) + platform);
            && r.Ok?
            && r.value.packJson == (if input.delivery.inlined then input.packJson else "")
            && r.value.packUri == (if input.delivery.inlined then "" else input.stagedPackUri)
            && r.value.agentName == agent
            && r.value.providersJson == codec.bindingsText(input.bindings)
            && r.value.toolSpecsJson == input.toolSpecs
            && r.value.tracingEnabled == Traced(input.cfg)
            && (Traced(input.cfg) && OtlpEndpoint !in platform
                ==> r.value.otlpEndpoint == input.cfg.observability.value.otlpEndpoint)
            && (input.cfg.project != "" ==> r.value.project == input.cfg.project)
            && (input.cfg.location != "" ==> r.value.location == input.cfg.location)
  {
    var env := BuiltEnv(codec, input, agent) + platform;
    BuiltReads(codec, input, agent, platform);
    BuiltTraces(codec, input, agent, platform);
    FirstOfTwo(env, Project, CloudProject);
    FirstOfThree(env, Location, EngineLocation, CloudLocation);
    hide BuiltEnv, Getenv, TracingFlag, FirstSet;
  }
}
