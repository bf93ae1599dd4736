/** Staging and applying a deployment (internal/vertex/staging.go, apply.go): what each
    loop does to the control plane and to the returned state, and the loops themselves. */
module Apply {
  import opened Texts
  import opened AdapterState
  import opened Inputs
  import opened EngineSpecs
  import opened ControlPlane
  import GcsUri

  const VERSION := "dev"

  datatype ApplyError =
    | NoStagingBucket
    | StageFailed(cause: ApiError)
    | AgentFailed(agent: string)
    | DeleteFailed(agent: string)

  // What an apply leaves behind: the control plane, the state to persist, an error.
  datatype Applied = Applied(cloud: Cloud, state: State, err: Option<ApplyError>)

  // ---- Staging ----

  function Staged(c: Cloud, input: EngineInput, prior: State): (Cloud, Result<string, ApplyError>) {
    if input.delivery.inlined then (c, Ok(""))
    else if input.cfg.stagingBucket == "" then (c, Err(NoStagingBucket))
    else
      var uri := GcsUri.StagedPackUri(input.cfg.stagingBucket, input.packHash);
      if prior.stagedPackUri == uri then (c, Ok(uri))
      else
        var (d, r) := Staging(c, uri, input.packJson);
        (d, if r.Err? then Err(StageFailed(r.error)) else Ok(uri))
  }

  method StagePack(client: Client, input: EngineInput, prior: State) returns (r: Result<string, ApplyError>)
    modifies client
    ensures (client.View(), r) == Staged(old(client.View()), input, prior)
  {
    if input.delivery.inlined {
      return Ok("");
    }
    if input.cfg.stagingBucket == "" {
      return Err(NoStagingBucket);
    }
    var uri := GcsUri.StagedPackUri(input.cfg.stagingBucket, input.packHash);
    if prior.stagedPackUri == uri {
      return Ok(uri);
    }
    var staged := client.StageObject(uri, input.packJson);
    r := if staged.Err? then Err(StageFailed(staged.error)) else Ok(uri);
  }

  // ---- One agent ----

  // Create when nothing usable is recorded, otherwise update, and recreate an engine
  // the provider no longer has.
  function PutEngine(c: Cloud, spec: EngineSpec, agent: string, prior: Engines): (Cloud, Option<ResourceName>) {
    if agent !in prior || prior[agent].name == NO_NAME then Created(Creating(c, spec))
    else
      var (d, r) := Updating(c, prior[agent].name, spec);
      if r == Err(EngineNotFound) then Created(Creating(d, spec)) else Created((d, r))
  }

  type Specs = string -> EngineSpec

  ghost function SpecsOf(codec: Codec, input: EngineInput): Specs {
    a => BuiltSpec(codec, input, a)
  }

  // No call is made for a spec that cannot be built.
  function OneApplied(buildable: bool, specs: Specs, c: Cloud, agent: string, prior: Engines)
    : (Cloud, Option<ResourceName>)
  {
    if !buildable then (c, None) else PutEngine(c, specs(agent), agent, prior)
  }

  function Created(p: (Cloud, Result<ResourceName, ApiError>)): (Cloud, Option<ResourceName>) {
    (p.0, if p.1.Ok? then Some(p.1.value) else None)
  }

  method ApplyOneEngine(codec: Codec, client: Client, input: EngineInput, agent: string, prior: State)
    returns (r: Option<ResourceName>)
    modifies client
    ensures (client.View(), r) == OneApplied(Buildable(codec, input), SpecsOf(codec, input), old(client.View()),
        agent, prior.engines)
  {
    var spec := BuildEngine(codec, input, agent);
    if spec.Err? {
      return None;
    }
    var made: Result<ResourceName, ApiError>;
    if agent !in prior.engines || prior.engines[agent].name == NO_NAME {
      made := client.CreateEngine(spec.value);
    } else {
      made := client.UpdateEngine(prior.engines[agent].name, spec.value);
      if made == Err(EngineNotFound) {
        made := client.CreateEngine(spec.value);
      }
    }
    r := if made.Ok? then Some(made.value) else None;
  }

  // ---- All agents, then the retired ones ----

  // Each agent is looked up in prior, and recorded in or struck from next.
  function AgentsApplied(
    buildable: bool, specs: Specs, c: Cloud, agents: seq<string>, prior: Engines, next: State
  ): Applied
    decreases |agents|
  {
    if agents == [] then Applied(c, next, None)
    else
      var (d, made) := OneApplied(buildable, specs, c, agents[0], prior);
      if made.None? then
        Applied(d, next.(engines := next.engines - {agents[0]}), Some(AgentFailed(agents[0])))
      else
        AgentsApplied(buildable, specs, d, agents[1..], prior,
                      next.(engines := next.engines[agents[0] := EngineState(made.value, false)]))
  }

  function NamesDeleted(c: Cloud, names: seq<string>, next: State): Applied
    requires forall n :: n in names ==> n in next.engines
    requires forall i, j | 0 <= i < j < |names| :: names[i] != names[j]
    decreases |names|
  {
    if names == [] then Applied(c, next, None)
    else
      var (d, r) := Deleting(c, next.engines[names[0]].name);
      if r.Err? then Applied(d, next, Some(DeleteFailed(names[0])))
      else
        assert forall n :: n in names[1..] ==> n in names;
        NamesDeleted(d, names[1..], next.(engines := next.engines - {names[0]}))
  }

  ghost function RemovedDeleted(c: Cloud, next: State, desired: set<string>): Applied {
    var removed := SortedNames(next.engines.Keys - desired);
    SortedNamesDistinct(removed);
    NamesDeleted(c, removed, next)
  }

  // newState, the new hashes and staged URI, and the prior engines: nothing else
  // of the prior state is carried over.
  function StartState(input: EngineInput, prior: State): State {
    NewState().(
      adapterVersion := VERSION,
      packHash := input.packHash,
      configHash := input.configHash,
      stagedPackUri := input.stagedPackUri,
      engines := prior.engines)
  }

  ghost function EnginesApplied(
    codec: Codec, c: Cloud, input: EngineInput, agents: seq<string>, prior: State
  ): Applied {
    var (d, staged) := Staged(c, input, prior);
    if staged.Err? then Applied(d, prior, Some(staged.error))
    else
      var ready := input.(stagedPackUri := staged.value);
      var mid := AgentsApplied(Buildable(codec, ready), SpecsOf(codec, ready), d, agents, prior.engines,
      StartState(ready, prior));
      if mid.err.Some? then mid
      else RemovedDeleted(mid.cloud, mid.state, set a | a in agents)
  }

  method DeleteRemoved(client: Client, next: State, desired: set<string>)
    returns (after: State, err: Option<ApplyError>)
    modifies client
    ensures Applied(client.View(), after, err) == RemovedDeleted(old(client.View()), next, desired)
  {
    var removed := SortedKeys(next.engines.Keys - desired);
    SortedNamesDistinct(removed);
    after := next;
    var i := 0;
    while i < |removed|
      invariant 0 <= i <= |removed|
      invariant forall n :: n in removed[i..] ==> n in after.engines
      invariant NamesDeleted(client.View(), removed[i..], after)
                == NamesDeleted(old(client.View()), removed, next)
    {
      var name := removed[i];
      assert removed[i..][0] == name && removed[i..][1..] == removed[i + 1..];
      var r := client.DeleteEngine(after.engines[name].name);
      if r.Err? {
        return after, Some(DeleteFailed(name));
      }
      after := after.(engines := after.engines - {name});
      i := i + 1;
    }
    err := None;
  }

  // next := newState(), then the hashes, the URI and a copy of every prior record.
  method FirstState(input: EngineInput, prior: State) returns (next: State)
    ensures next == StartState(input, prior)
  {
    next := NewState();
    next := next.(adapterVersion := VERSION, packHash := input.packHash,
                  configHash := input.configHash, stagedPackUri := input.stagedPackUri);
    var todo := prior.engines.Keys;
    while todo != {}
      invariant todo <= prior.engines.Keys
      invariant next == StartState(input, prior).(engines := prior.engines - todo)
      decreases |todo|
    {
      var name :| name in todo;
      next := next.(engines := next.engines[name := prior.engines[name]]);
      todo := todo - {name};
    }
    assert prior.engines - {} == prior.engines;
  }

  method DeployAgents(
    codec: Codec, client: Client, input: EngineInput, agents: seq<string>, prior: State, start: State
  ) returns (next: State, err: Option<ApplyError>)
    modifies client
    ensures Applied(client.View(), next, err)
            == AgentsApplied(Buildable(codec, input), SpecsOf(codec, input), old(client.View()), agents,
                prior.engines, start)
  {
    ghost var buildable, specs := Buildable(codec, input), SpecsOf(codec, input);
    next := start;
    var i := 0;
    while i < |agents|
      invariant 0 <= i <= |agents|
      invariant AgentsApplied(buildable, specs, client.View(), agents[i..], prior.engines, next)
                == AgentsApplied(buildable, specs, old(client.View()), agents, prior.engines, start)
    {
      var agent := agents[i];
      assert agents[i..][0] == agent && agents[i..][1..] == agents[i + 1..];
      var made := ApplyOneEngine(codec, client, input, agent, prior);
      if made.None? {
        return next.(engines := next.engines - {agent}), Some(AgentFailed(agent));
      }
      next := next.(engines := next.engines[agent := EngineState(made.value, false)]);
      i := i + 1;
    }
    err := None;
  }

  method ApplyEngines(codec: Codec, client: Client, input: EngineInput, agents: seq<string>, prior: State)
    returns (next: State, err: Option<ApplyError>)
    modifies client
    ensures Applied(client.View(), next, err) == EnginesApplied(codec, old(client.View()), input, agents, prior)
  {
    var staged := StagePack(client, input, prior);
    if staged.Err? {
      return prior, Some(staged.error);
    }
    var ready := input.(stagedPackUri := staged.value);
    next := FirstState(ready, prior);
    var desired: set<string> := {};
    for i := 0 to |agents|
      invariant desired == set a | a in agents[..i]
    {
      desired := desired + {agents[i]};
    }
    assert agents[..|agents|] == agents;
    next, err := DeployAgents(codec, client, ready, agents, prior, next);
    if err.Some? {
      return;
    }
    next, err := DeleteRemoved(client, next, desired);
  }
}
