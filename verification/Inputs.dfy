/** What a deployment reads: config, pack and the hashes over them
    (internal/vertex/config.go, pack.go, hash.go, provider.go).

    JSON decoding, SHA-256 and the JSON encodings that feed it enter through Codec. */
module Inputs {
  import opened Texts
  import GcsUri
  import LabelMaps

  const DEFAULT_PACK_INLINE_LIMIT_BYTES := 24576

  // Environment variable names: one constructor for each name either side gives a
  // meaning to, one for any other name under PROMPTPACK_, and one for the rest.
  datatype EnvName =
    | PackJson | PackUri | AgentName | Providers | Project | Location
    | TracingEnabled | ToolSpecs | OtherPromptpack(suffix: string)
    | OtlpEndpoint | CloudProject | CloudLocation | EngineId | EngineLocation
    | Plain(name: string)

  type Env = map<EnvName, string>

  // Names under PROMPTPACK_ belong to the adapter.
  predicate ReservedName(name: EnvName) {
    match name
    case PackJson | PackUri | AgentName | Providers | Project | Location | TracingEnabled | ToolSpecs => true
    case OtherPromptpack(_) => true
    case OtlpEndpoint | CloudProject | CloudLocation | EngineId | EngineLocation | Plain(_) => false
  }

  datatype ResourceLimits = ResourceLimits(cpu: string, memory: string)

  datatype Observability = Observability(tracingEnabled: bool, otlpEndpoint: string)

  datatype Binding = Binding(name: string, role: string, kind: string, model: string, endpoint: string)

  datatype Config = Config(
    project: string,
    location: string,
    stagingBucket: string,
    imageMode: string,
    image: string,
    serviceAccount: string,
    resourceLimits: Option<ResourceLimits>,
    minInstances: Option<int>,
    maxInstances: Option<int>,
    containerConcurrency: Option<int>,
    env: Env,
    labels: map<string, string>,
    packInlineLimitBytes: int,
    dryRun: bool,
    observability: Option<Observability>
  )

  // ---- What the config's own fields have to be ----

  const IMAGE_MODE_PREBUILT := "prebuilt"
  const IMAGE_MODE_CLOUDBUILD := "cloudbuild"

  datatype StructureError =
    | ProjectRequired | LocationRequired | BucketScheme
    | ImageRequired | ModeNotImplemented | UnknownMode
    | EndpointRequired | EndpointScheme
    | NegativeMin | MaxBelowOne | MinAboveMax | ConcurrencyBelowOne

  // One mode works, and it names an image.
  predicate ValidImage(cfg: Config) {
    cfg.imageMode == IMAGE_MODE_PREBUILT && cfg.image != ""
  }

  // Tracing has somewhere to go, and an endpoint is a full URL.
  predicate ValidObservability(observability: Option<Observability>) {
    observability.Some?
    ==> var endpoint := observability.value.otlpEndpoint;
        if endpoint == "" then !observability.value.tracingEnabled
        else HasPrefix(endpoint, "http://") || HasPrefix(endpoint, "https://")
  }

  predicate ValidScaling(cfg: Config) {
    && (cfg.minInstances.Some? ==> cfg.minInstances.value >= 0)
    && (cfg.maxInstances.Some? ==> cfg.maxInstances.value >= 1)
    && (cfg.minInstances.Some? && cfg.maxInstances.Some? ==> cfg.minInstances.value <= cfg.maxInstances.value)
    && (cfg.containerConcurrency.Some? ==> cfg.containerConcurrency.value >= 1)
  }

  predicate ValidStructure(cfg: Config) {
    && cfg.project != "" && cfg.location != ""
    && ValidImage(cfg)
    && (cfg.stagingBucket == "" || HasPrefix(cfg.stagingBucket, GcsUri.GCS_SCHEME))
    && ValidObservability(cfg.observability)
    && ValidScaling(cfg)
  }

  lemma StructureExactly(cfg: Config)
    ensures ValidStructure(cfg)
            <==> && cfg.project != "" && cfg.location != ""
                 && cfg.imageMode == "prebuilt" && cfg.image != ""
                 && (cfg.stagingBucket == "" || HasPrefix(cfg.stagingBucket, "gs://"))
                 && (cfg.observability.None?
                     || (var endpoint := cfg.observability.value.otlpEndpoint;
                         if endpoint == "" then !cfg.observability.value.tracingEnabled
                         else HasPrefix(endpoint, "http://") || HasPrefix(endpoint, "https://")))
                 && (cfg.minInstances.None? || cfg.minInstances.value >= 0)
                 && (cfg.maxInstances.None? || cfg.maxInstances.value >= 1)
                 && (cfg.minInstances.None? || cfg.maxInstances.None?
                     || cfg.minInstances.value <= cfg.maxInstances.value)
                 && (cfg.containerConcurrency.None? || cfg.containerConcurrency.value >= 1)
  {}

  method ValidateImageMode(cfg: Config) returns (errs: seq<StructureError>)
    ensures errs == [] <==> ValidImage(cfg)
  {
    if cfg.imageMode == IMAGE_MODE_PREBUILT {
      return if cfg.image == "" then [ImageRequired] else [];
    }
    errs := if cfg.imageMode == IMAGE_MODE_CLOUDBUILD then [ModeNotImplemented] else [UnknownMode];
  }

  method ValidateObservability(observability: Option<Observability>) returns (errs: seq<StructureError>)
    ensures errs == [] <==> ValidObservability(observability)
  {
    if observability.None? {
      return [];
    }
    var endpoint := observability.value.otlpEndpoint;
    if observability.value.tracingEnabled && endpoint == "" {
      return [EndpointRequired];
    }
    if endpoint != "" && !HasPrefix(endpoint, "http://") && !HasPrefix(endpoint, "https://") {
      return [EndpointScheme];
    }
    errs := [];
  }

  method ValidateScaling(cfg: Config) returns (errs: seq<StructureError>)
    ensures errs == [] <==> ValidScaling(cfg)
  {
    errs := [];
    if cfg.minInstances.Some? && cfg.minInstances.value < 0 {
      errs := errs + [NegativeMin];
    }
    if cfg.maxInstances.Some? && cfg.maxInstances.value < 1 {
      errs := errs + [MaxBelowOne];
    }
    if cfg.minInstances.Some? && cfg.maxInstances.Some? && cfg.minInstances.value > cfg.maxInstances.value {
      errs := errs + [MinAboveMax];
    }
    if cfg.containerConcurrency.Some? && cfg.containerConcurrency.value < 1 {
      errs := errs + [ConcurrencyBelowOne];
    }
  }

  method ValidateStructure(cfg: Config) returns (errs: seq<StructureError>)
    ensures errs == [] <==> ValidStructure(cfg)
  {
    errs := [];
    if cfg.project == "" {
      errs := errs + [ProjectRequired];
    }
    if cfg.location == "" {
      errs := errs + [LocationRequired];
    }
    var image := ValidateImageMode(cfg);
    errs := errs + image;
    if cfg.stagingBucket != "" && !HasPrefix(cfg.stagingBucket, GcsUri.GCS_SCHEME) {
      errs := errs + [BucketScheme];
    }
    var observability := ValidateObservability(cfg.observability);
    errs := errs + observability;
    var scaling := ValidateScaling(cfg);
    errs := errs + scaling;
  }

  datatype AgentsView = AgentsView(entry: string, members: set<string>)

  datatype PackView = PackView(id: string, prompts: set<string>, agents: Option<AgentsView>)

  // Every config field that, when changed, must show up as a diff.
  datatype Fingerprint = Fingerprint(
    project: string,
    location: string,
    image: string,
    imageMode: string,
    serviceAccount: string,
    resourceLimits: Option<ResourceLimits>,
    minInstances: Option<int>,
    maxInstances: Option<int>,
    containerConcurrency: Option<int>,
    labels: map<string, string>,
    bindings: seq<Binding>,
    observability: Option<Observability>,
    toolSpecs: string
  )

  datatype Codec = Codec(
    view: string -> Option<PackView>,
    cards: string -> Option<map<string, string>>,
    hash: string -> string,
    fingerprintText: Fingerprint -> string,
    bindingsText: seq<Binding> -> string,
    labels: LabelMaps.Sanitizer
  )

  // A digest is a non-empty hex string, and the empty text is not a JSON pack.
  ghost predicate WellBehaved(codec: Codec) {
    && (forall t :: codec.hash(t) != "" && '/' !in codec.hash(t))
    && codec.view("") == None
  }

  // SHA-256 separates the packs at hand.
  ghost predicate Separates(codec: Codec, packs: set<string>) {
    forall p, q :: p in packs && q in packs && codec.hash(p) == codec.hash(q) ==> p == q
  }

  function ConfigFingerprint(cfg: Config, bindings: seq<Binding>, toolSpecs: string): Fingerprint {
    Fingerprint(
      cfg.project, cfg.location, cfg.image, cfg.imageMode, cfg.serviceAccount,
      cfg.resourceLimits, cfg.minInstances, cfg.maxInstances, cfg.containerConcurrency,
      cfg.labels, bindings, cfg.observability, toolSpecs)
  }

  function HashPlanConfig(codec: Codec, cfg: Config, bindings: seq<Binding>, toolSpecs: string): string {
    codec.hash(codec.fingerprintText(ConfigFingerprint(cfg, bindings, toolSpecs)))
  }

  datatype PackDelivery = PackDelivery(inlined: bool, sizeBytes: nat)

  function InlineLimit(cfg: Config): int {
    if cfg.packInlineLimitBytes > 0 then cfg.packInlineLimitBytes else DEFAULT_PACK_INLINE_LIMIT_BYTES
  }

  // A pack exactly at the limit is still inline. Text is a sequence of bytes here, so
  // its length is the size the limit is about.
  function DecidePackDelivery(packJson: string, cfg: Config): PackDelivery {
    PackDelivery(|packJson| <= InlineLimit(cfg), |packJson|)
  }

  function ValidPackDelivery(delivery: PackDelivery, cfg: Config): bool {
    delivery.inlined || cfg.stagingBucket != ""
  }

  function AgentNames(view: PackView): set<string> {
    if view.agents.Some? && view.agents.value.members != {} then view.agents.value.members else view.prompts
  }

  // The agents to deploy, ascending: the members of an agents section that has any, the
  // prompts of any other pack. A pack with none is an error.
  method EnumerateAgents(codec: Codec, packJson: string) returns (agents: Option<seq<string>>)
    ensures agents.Some? <==> codec.view(packJson).Some? && AgentNames(codec.view(packJson).value) != {}
    ensures agents.Some? ==> agents.value == SortedNames(AgentNames(codec.view(packJson).value))
    ensures agents.Some? <==> && codec.view(packJson).Some?
                              && var view := codec.view(packJson).value;
                                 view.prompts != {} || (view.agents.Some? && view.agents.value.members != {})
    ensures agents.Some?
            ==> && Ascending(agents.value)
                && var view := codec.view(packJson).value;
                   forall n :: n in agents.value
                               <==> if view.agents.Some? && view.agents.value.members != {}
                                    then n in view.agents.value.members else n in view.prompts
  {
    if codec.view(packJson).None? {
      return None;
    }
    var names := AgentNames(codec.view(packJson).value);
    if names == {} {
      return None;
    }
    var sorted := SortedKeys(names);
    agents := Some(sorted);
  }

  const ROLE_LLM := "llm"
  const DEFAULT_BINDING_NAME := "default"

  // A binding that can supply the conversation's model; a plan asks for one.
  predicate HasLlm(bindings: seq<Binding>) {
    exists i :: 0 <= i < |bindings| && bindings[i].role == ROLE_LLM
  }

  // The one named "default" if there is one, otherwise the first.
  method PrimaryBinding(bindings: seq<Binding>) returns (b: Option<Binding>)
    ensures b.Some? <==> HasLlm(bindings)
    ensures b.Some? ==> b.value in bindings && b.value.role == ROLE_LLM
    ensures b.Some? && b.value.name != DEFAULT_BINDING_NAME
            ==> exists i :: && 0 <= i < |bindings| && bindings[i] == b.value
                            && (forall j :: 0 <= j < i ==> bindings[j].role != ROLE_LLM)
                            && (forall j :: i < j < |bindings| && bindings[j].role == ROLE_LLM
                                            ==> bindings[j].name != DEFAULT_BINDING_NAME)
  {
    b := None;
    ghost var first := 0;
    var i := 0;
    while i < |bindings|
      invariant 0 <= i <= |bindings|
      invariant b.None? ==> forall j :: 0 <= j < i ==> bindings[j].role != ROLE_LLM
      invariant b.Some? ==> 0 <= first < i && bindings[first] == b.value && b.value.role == ROLE_LLM
      invariant b.Some? ==> forall j :: 0 <= j < first ==> bindings[j].role != ROLE_LLM
      invariant forall j :: 0 <= j < i && bindings[j].role == ROLE_LLM ==> bindings[j].name != DEFAULT_BINDING_NAME
    {
      if bindings[i].role == ROLE_LLM {
        if bindings[i].name == DEFAULT_BINDING_NAME {
          return Some(bindings[i]);
        }
        if b.None? {
          b, first := Some(bindings[i]), i;
        }
      }
      i := i + 1;
    }
  }

  // One plan or apply request after binding resolution and tool-spec encoding.
  datatype Request = Request(packJson: string, cfg: Config, bindings: seq<Binding>, toolSpecs: string)

  datatype EngineInput = EngineInput(
    cfg: Config,
    packJson: string,
    packId: string,
    packHash: string,
    configHash: string,
    bindings: seq<Binding>,
    delivery: PackDelivery,
    stagedPackUri: string,
    agentCards: map<string, string>,
    toolSpecs: string
  )

  datatype Gathered = Gathered(input: EngineInput, agents: seq<string>)

  ghost predicate Gathers(codec: Codec, req: Request) {
    && ValidStructure(req.cfg)
    && codec.view(req.packJson).Some?
    && AgentNames(codec.view(req.packJson).value) != {}
    && codec.view(req.packJson).value.id != ""
    && codec.cards(req.packJson).Some?
  }

  ghost function InputOf(codec: Codec, req: Request): EngineInput
    requires Gathers(codec, req)
  {
    EngineInput(
      req.cfg,
      req.packJson,
      codec.view(req.packJson).value.id,
      codec.hash(req.packJson),
      HashPlanConfig(codec, req.cfg, req.bindings, req.toolSpecs),
      req.bindings,
      DecidePackDelivery(req.packJson, req.cfg),
      "",
      codec.cards(req.packJson).value,
      req.toolSpecs)
  }

  ghost function AgentsOf(codec: Codec, req: Request): (agents: seq<string>)
    requires Gathers(codec, req)
    ensures Ascending(agents) && agents != []
  {
    var names := AgentNames(codec.view(req.packJson).value);
    assert exists x :: x in names;
    SortedNames(names)
  }

  // Each field of the input is the request's own.
  ghost predicate Carries(codec: Codec, req: Request, input: EngineInput) {
    && input.cfg == req.cfg && input.packJson == req.packJson && input.bindings == req.bindings
    && input.toolSpecs == req.toolSpecs && input.stagedPackUri == ""
    && codec.view(req.packJson).Some? && input.packId == codec.view(req.packJson).value.id != ""
    && codec.cards(req.packJson) == Some(input.agentCards)
    && input.packHash == codec.hash(req.packJson)
    && input.configHash
       == codec.hash(codec.fingerprintText(ConfigFingerprint(req.cfg, req.bindings, req.toolSpecs)))
    && input.delivery.sizeBytes == |req.packJson|
    && (input.delivery.inlined
        <==> |req.packJson| <= if req.cfg.packInlineLimitBytes > 0 then req.cfg.packInlineLimitBytes else 24576)
  }

  method GatherApplyInput(codec: Codec, req: Request) returns (r: Option<Gathered>)
    ensures r.Some? <==> Gathers(codec, req)
    ensures r.Some? ==> r.value == Gathered(InputOf(codec, req), AgentsOf(codec, req))
    ensures r.Some? ==> Carries(codec, req, r.value.input)
  {
    var errs := ValidateStructure(req.cfg);
    if errs != [] {
      return None;
    }
    var configHash := HashPlanConfig(codec, req.cfg, req.bindings, req.toolSpecs);
    var agents := EnumerateAgents(codec, req.packJson);
    if agents.None? {
      return None;
    }
    var packId := codec.view(req.packJson).value.id;
    if packId == "" {
      return None;
    }
    var cards := codec.cards(req.packJson);
    if cards.None? {
      return None;
    }
    r := Some(Gathered(
      EngineInput(req.cfg, req.packJson, packId, codec.hash(req.packJson), configHash, req.bindings,
                  DecidePackDelivery(req.packJson, req.cfg), "", cards.value, req.toolSpecs),
      agents.value));
  }
}
