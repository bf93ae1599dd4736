/** From deployment inputs to one engine's desired spec (internal/vertex/engine.go). */
module EngineSpecs {
  import opened Texts
  import opened Inputs
  import LabelMaps

  datatype Description = Description(agent: string, packId: string)

  datatype EngineSpec = EngineSpec(
    displayName: string,
    description: Description,
    imageUri: string,
    serviceAccount: string,
    labels: map<string, string>,
    env: Env,
    resourceLimits: Option<ResourceLimits>,
    minInstances: Option<int>,
    maxInstances: Option<int>,
    containerConcurrency: Option<int>,
    agentCard: Option<string>
  )

  datatype SpecError =
    | ReservedEnv(names: seq<EnvName>)
    | NoStagedPack
    | BadLabels(errs: seq<LabelMaps.LabelError>)

  // ---- The environment ----

  ghost predicate NoReservedNames(env: Env) {
    forall n :: n in env ==> !ReservedName(n)
  }

  function BaseEnv(codec: Codec, input: EngineInput, agent: string): Env {
    map[AgentName := agent,
        Providers := codec.bindingsText(input.bindings),
        Project := input.cfg.project,
        Location := input.cfg.location]
    + if input.toolSpecs != "" then map[ToolSpecs := input.toolSpecs] else map[]
  }

  function TracingEnv(cfg: Config): Env {
    if cfg.observability.Some? && cfg.observability.value.tracingEnabled
    then map[TracingEnabled := "true", OtlpEndpoint := cfg.observability.value.otlpEndpoint]
    else map[]
  }

  function PackEnv(input: EngineInput): Env {
    if input.delivery.inlined then map[PackJson := input.packJson] else map[PackUri := input.stagedPackUri]
  }

  ghost function BuiltEnv(codec: Codec, input: EngineInput, agent: string): Env {
    BaseEnv(codec, input, agent) + input.cfg.env + TracingEnv(input.cfg) + PackEnv(input)
  }

  // Which part of a built environment gives which names.
  lemma EnvKeys(codec: Codec, input: EngineInput, agent: string)
    ensures forall k :: k in BaseEnv(codec, input, agent)
                        ==> ReservedName(k) && !k.PackJson? && !k.PackUri? && !k.TracingEnabled?
    ensures forall k :: k in TracingEnv(input.cfg) ==> k.TracingEnabled? || k.OtlpEndpoint?
    ensures forall k :: k in PackEnv(input) ==> k.PackJson? || k.PackUri?
  {}

  ghost predicate EnvBuildable(input: EngineInput) {
    NoReservedNames(input.cfg.env) && (input.delivery.inlined || input.stagedPackUri != "")
  }

  // Operator variables go over the base ones in any order; a reserved name is
  // reported, not written.
  method WriteOperatorEnv(base: Env, operator: Env) returns (env: Env, reserved: seq<EnvName>)
    ensures reserved == [] <==> NoReservedNames(operator)
    ensures reserved == [] ==> env == base + operator
  {
    env, reserved := base, [];
    var todo := operator.Keys;
    while todo != {}
      invariant todo <= operator.Keys
      invariant reserved == [] <==> NoReservedNames(operator - todo)
      invariant reserved == [] ==> env == base + (operator - todo)
      decreases |todo|
    {
      var name :| name in todo;
      todo := todo - {name};
      if ReservedName(name) {
        reserved := reserved + [name];
        continue;
      }
      env := env[name := operator[name]];
    }
    assert operator - {} == operator;
  }

  method BuildEngineEnv(codec: Codec, input: EngineInput, agent: string) returns (r: Result<Env, SpecError>)
    ensures r.Ok? <==> EnvBuildable(input)
    ensures r.Ok? ==> r.value == BuiltEnv(codec, input, agent)
    ensures r.Err? ==> !r.error.BadLabels?
  {
    var env, reserved := WriteOperatorEnv(BaseEnv(codec, input, agent), input.cfg.env);
    if |reserved| > 0 {
      return Err(ReservedEnv(reserved));
    }
    ghost var written := env;
    if input.cfg.observability.Some? && input.cfg.observability.value.tracingEnabled {
      env := env[TracingEnabled := "true"];
      env := env[OtlpEndpoint := input.cfg.observability.value.otlpEndpoint];
    }
    assert env == written + TracingEnv(input.cfg);
    ghost var traced := env;
    if input.delivery.inlined {
      env := env[PackJson := input.packJson];
      assert env == traced + PackEnv(input);
      return Ok(env);
    }
    if input.stagedPackUri == "" {
      return Err(NoStagedPack);
    }
    env := env[PackUri := input.stagedPackUri];
    assert env == traced + PackEnv(input);
    r := Ok(env);
  }

  // ---- The whole spec ----

  // Nil and all-empty limits are both left to the API's default.
  function LimitsSpec(limits: Option<ResourceLimits>): Option<ResourceLimits> {
    if limits == Some(ResourceLimits("", "")) then None else limits
  }

  function CardOf(cards: map<string, string>, agent: string): Option<string> {
    if agent in cards then Some(cards[agent]) else None
  }

  ghost function BuiltSpec(codec: Codec, input: EngineInput, agent: string): EngineSpec {
    EngineSpec(
      agent,
      Description(agent, input.packId),
      input.cfg.image,
      input.cfg.serviceAccount,
      LabelMaps.BuiltLabels(codec.labels, input.cfg.labels, input.packId, agent),
      BuiltEnv(codec, input, agent),
      LimitsSpec(input.cfg.resourceLimits),
      input.cfg.minInstances,
      input.cfg.maxInstances,
      input.cfg.containerConcurrency,
      CardOf(input.agentCards, agent))
  }

  // Whether a spec can be built does not depend on which agent it is for.
  ghost predicate Buildable(codec: Codec, input: EngineInput) {
    EnvBuildable(input) && LabelMaps.CleanLabels(codec.labels, input.cfg.labels)
  }

  // Each field of a spec is the input's own: the bounds, the limits unless they are all
  // empty, and the agent's own card.
  ghost predicate AsAsked(input: EngineInput, agent: string, spec: EngineSpec) {
    && spec.displayName == agent
    && spec.description.agent == agent && spec.description.packId == input.packId
    && spec.imageUri == input.cfg.image && spec.serviceAccount == input.cfg.serviceAccount
    && spec.minInstances == input.cfg.minInstances && spec.maxInstances == input.cfg.maxInstances
    && spec.containerConcurrency == input.cfg.containerConcurrency
    && (if input.cfg.resourceLimits.None? || input.cfg.resourceLimits.value == ResourceLimits("", "")
        then spec.resourceLimits == None else spec.resourceLimits == input.cfg.resourceLimits)
    && (if agent in input.agentCards then spec.agentCard == Some(input.agentCards[agent]) else spec.agentCard == None)
  }

  lemma BuiltAsAsked(codec: Codec, input: EngineInput, agent: string)
    ensures AsAsked(input, agent, BuiltSpec(codec, input, agent))
  {
    hide BuiltEnv;
  }

  method BuildEngine(codec: Codec, input: EngineInput, agent: string) returns (r: Result<EngineSpec, SpecError>)
    ensures r.Ok? <==> Buildable(codec, input)
    ensures r.Ok? ==> r.value == BuiltSpec(codec, input, agent) && AsAsked(input, agent, r.value)
  {
    var env := BuildEngineEnv(codec, input, agent);
    if env.Err? {
      return Err(env.error);
    }
    var labels := LabelMaps.BuildLabels(codec.labels, input.cfg.labels, input.packId, agent);
    if labels.Err? {
      return Err(BadLabels(labels.error));
    }
    r := Ok(EngineSpec(
      agent, Description(agent, input.packId), input.cfg.image, input.cfg.serviceAccount,
      labels.value, env.value, LimitsSpec(input.cfg.resourceLimits), input.cfg.minInstances,
      input.cfg.maxInstances, input.cfg.containerConcurrency, CardOf(input.agentCards, agent)));
  }
}
