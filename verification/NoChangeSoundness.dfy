/** When "no change" in a plan can be believed. */
module NoChangeSoundness {
  import opened Texts
  import opened AdapterState
  import opened Inputs
  import opened EngineSpecs
  import opened ControlPlane
  import opened Apply
  import opened ApplyFacts
  import opened ApplyTheorems
  import LabelMaps
  import Plan

  // The hash tells these two requests' packs and fingerprints apart.
  ghost predicate TellsApart(codec: Codec, p: Request, q: Request) {
    && (codec.hash(p.packJson) == codec.hash(q.packJson) ==> p.packJson == q.packJson)
    && var f, g := ConfigFingerprint(p.cfg, p.bindings, p.toolSpecs), ConfigFingerprint(q.cfg, q.bindings, q.toolSpecs);
       codec.hash(codec.fingerprintText(f)) == codec.hash(codec.fingerprintText(g)) ==> f == g
  }

  // The operator's variables that reach the engine: tracing overrides one of them.
  function EffectiveEnv(cfg: Config): Env {
    cfg.env - TracingEnv(cfg).Keys
  }

  // What the two hashes do not cover: the operator's variables and the way the pack travels.
  ghost predicate SameUnhashed(p: EngineInput, q: EngineInput) {
    EffectiveEnv(p.cfg) == EffectiveEnv(q.cfg) && PackEnv(p) == PackEnv(q)
  }

  // How one variable of a built environment comes about.
  lemma BuiltEnvLookup(codec: Codec, input: EngineInput, agent: string, k: EnvName)
    requires NoReservedNames(input.cfg.env)
    ensures var env := BuiltEnv(codec, input, agent);
            && (k in PackEnv(input) ==> k in env && env[k] == PackEnv(input)[k])
            && (k.PackJson? || k.PackUri? ==> (k in env <==> k in PackEnv(input)))
            && (k in EffectiveEnv(input.cfg) ==> k in env && env[k] == EffectiveEnv(input.cfg)[k])
            && (!ReservedName(k) && k !in TracingEnv(input.cfg) ==> (k in env <==> k in EffectiveEnv(input.cfg)))
  {
    EnvKeys(codec, input, agent);
    hide BaseEnv, TracingEnv, PackEnv;
  }

  lemma LayersCompose(codec: Codec, input: EngineInput, agent: string)
    ensures BuiltEnv(codec, input, agent)
            == BaseEnv(codec, input, agent) + EffectiveEnv(input.cfg) + TracingEnv(input.cfg) + PackEnv(input)
  {
    hide BaseEnv, TracingEnv, PackEnv;
  }

  lemma EnvsTellUnhashed(codec: Codec, p: EngineInput, q: EngineInput, agent: string)
    requires NoReservedNames(p.cfg.env) && NoReservedNames(q.cfg.env)
    requires TracingEnv(p.cfg) == TracingEnv(q.cfg) && BuiltEnv(codec, p, agent) == BuiltEnv(codec, q, agent)
    ensures SameUnhashed(p, q)
  {
    EnvKeys(codec, p, agent);
    EnvKeys(codec, q, agent);
    hide BaseEnv, TracingEnv, PackEnv, BuiltEnv;
    forall k: EnvName
      ensures k in EffectiveEnv(p.cfg) <==> k in EffectiveEnv(q.cfg)
      ensures k in EffectiveEnv(p.cfg) ==> EffectiveEnv(p.cfg)[k] == EffectiveEnv(q.cfg)[k]
      ensures k in PackEnv(p) <==> k in PackEnv(q)
      ensures k in PackEnv(p) ==> PackEnv(p)[k] == PackEnv(q)[k]
    {
      BuiltEnvLookup(codec, p, agent, k);
      BuiltEnvLookup(codec, q, agent, k);
    }
    assert EffectiveEnv(p.cfg) == EffectiveEnv(q.cfg);
    assert PackEnv(p) == PackEnv(q);
  }

  lemma EqualEnvs(codec: Codec, p: EngineInput, q: EngineInput, agent: string)
    requires p.bindings == q.bindings && p.toolSpecs == q.toolSpecs && p.cfg.project == q.cfg.project
    requires p.cfg.location == q.cfg.location && p.cfg.observability == q.cfg.observability
    requires NoReservedNames(p.cfg.env) && NoReservedNames(q.cfg.env)
    ensures BuiltEnv(codec, p, agent) == BuiltEnv(codec, q, agent) <==> SameUnhashed(p, q)
  {
    assert BaseEnv(codec, p, agent) == BaseEnv(codec, q, agent) && TracingEnv(p.cfg) == TracingEnv(q.cfg);
    LayersCompose(codec, p, agent);
    LayersCompose(codec, q, agent);
    hide BaseEnv, TracingEnv, PackEnv, BuiltEnv, EffectiveEnv;
    if BuiltEnv(codec, p, agent) == BuiltEnv(codec, q, agent) {
      EnvsTellUnhashed(codec, p, q, agent);
    }
  }

  // Of the rest of a spec the fingerprint and the pack decide everything.
  lemma EqualSpecs(codec: Codec, p: EngineInput, q: EngineInput, agent: string)
    requires ConfigFingerprint(p.cfg, p.bindings, p.toolSpecs) == ConfigFingerprint(q.cfg, q.bindings, q.toolSpecs)
    requires p.packId == q.packId && p.agentCards == q.agentCards
    requires NoReservedNames(p.cfg.env) && NoReservedNames(q.cfg.env)
    ensures BuiltSpec(codec, p, agent) == BuiltSpec(codec, q, agent) <==> SameUnhashed(p, q)
  {
    EqualEnvs(codec, p, q, agent);
    hide BuiltEnv, SameUnhashed;
  }

  function PlanOver(codec: Codec, req: Request, agents: seq<string>, prior: State, drift: seq<string>): Plan.PlanInput {
    Plan.PlanInput(agents, prior, codec.hash(req.packJson), HashPlanConfig(codec, req.cfg, req.bindings, req.toolSpecs),
                   DecidePackDelivery(req.packJson, req.cfg), drift)
  }

  lemma SuccessWasBuildable(codec: Codec, c: Cloud, input: EngineInput, agents: seq<string>, prior: State)
    requires agents != [] && EnginesApplied(codec, c, input, agents, prior).err.None?
    ensures Staged(c, input, prior).1.Ok? && Buildable(codec, ReadyInput(c, input, prior))
  {}

  // A plan of `after` over the state a successful apply of `before` stored, whatever
  // has been dropped from it since, says this agent is up to date.
  ghost predicate PlansNoChange(
    codec: Codec, c: Cloud, before: Request, prior: State, after: Request, kept: Engines, drift: seq<string>,
    agent: string
  )
    requires Gathers(codec, before) && Gathers(codec, after)
  {
    var r := EnginesApplied(codec, c, InputOf(codec, before), AgentsOf(codec, before), prior);
    && r.err.None?
    && Plan.EngineAction(PlanOver(codec, after, AgentsOf(codec, after), r.state.(engines := kept), drift),
        agent) == Plan.NoChange
  }

  // Then a spec can still be built exactly when no variable is reserved and the pack has
  // a route, and it is the one deployed exactly when the operator's variables and the
  // route are the same: the hashes cover everything else buildEngine reads.
  ghost predicate RightExactlyWhen(codec: Codec, before: Request, after: Request, agent: string)
    requires Gathers(codec, before) && Gathers(codec, after)
  {
    var was, now := WithUri(InputOf(codec, before)), WithUri(InputOf(codec, after));
    && before.packJson == after.packJson
    && AgentsOf(codec, before) == AgentsOf(codec, after)
    && (Buildable(codec, now)
        <==> NoReservedNames(after.cfg.env) && (now.delivery.inlined || now.stagedPackUri != ""))
    && (NoReservedNames(after.cfg.env)
        ==> (BuiltSpec(codec, was, agent) == BuiltSpec(codec, now, agent) <==> SameUnhashed(was, now)))
    && ((&& before.cfg.env == after.cfg.env
         && before.cfg.stagingBucket == after.cfg.stagingBucket
         && before.cfg.packInlineLimitBytes == after.cfg.packInlineLimitBytes)
        ==> SameUnhashed(was, now))
  }

  lemma NoChangeIsSound(
    codec: Codec, c: Cloud, before: Request, prior: State, after: Request, kept: Engines, drift: seq<string>,
    agent: string
  )
    requires Gathers(codec, before) && Gathers(codec, after) && TellsApart(codec, before, after)
    requires Consistent(c, prior.engines)
    ensures PlansNoChange(codec, c, before, prior, after, kept, drift, agent)
            ==> RightExactlyWhen(codec, before, after, agent)
  {
    if PlansNoChange(codec, c, before, prior, after, kept, drift, agent) {
      SameHashes(codec, c, before, prior, after, kept, drift, agent);
      SuccessWasBuildable(codec, c, InputOf(codec, before), AgentsOf(codec, before), prior);
      ReadyHasUri(c, InputOf(codec, before), prior);
      hide PlansNoChange, EnginesApplied, RightExactlyWhen, Buildable, Gathers;
      EqualHashesDecide(codec, before, after, agent);
    }
  }

  lemma EqualHashesDecide(codec: Codec, before: Request, after: Request, agent: string)
    requires Gathers(codec, before) && Gathers(codec, after) && before.packJson == after.packJson
    requires ConfigFingerprint(before.cfg, before.bindings, before.toolSpecs)
             == ConfigFingerprint(after.cfg, after.bindings, after.toolSpecs)
    requires Buildable(codec, WithUri(InputOf(codec, before)))
    ensures RightExactlyWhen(codec, before, after, agent)
  {
    var was, now := WithUri(InputOf(codec, before)), WithUri(InputOf(codec, after));
    StillBuildable(codec, was, now);
    if && before.cfg.env == after.cfg.env && before.cfg.stagingBucket == after.cfg.stagingBucket
       && before.cfg.packInlineLimitBytes == after.cfg.packInlineLimitBytes {
      SameRouteSameUnhashed(codec, before, after);
    }
    hide BuiltSpec, Buildable, WithUri, SameUnhashed, LabelMaps.CleanLabels, ValidStructure;
    assert was.cfg == before.cfg && now.cfg == after.cfg;
    if NoReservedNames(after.cfg.env) {
      EqualSpecs(codec, was, now, agent);
    }
  }

  // The labels are in the fingerprint; the variables and the route are not.
  lemma StillBuildable(codec: Codec, was: EngineInput, now: EngineInput)
    requires was.cfg.labels == now.cfg.labels && Buildable(codec, was)
    ensures Buildable(codec, now)
            <==> NoReservedNames(now.cfg.env) && (now.delivery.inlined || now.stagedPackUri != "")
    ensures NoReservedNames(was.cfg.env)
  {
    hide LabelMaps.CleanLabels;
  }

  lemma SameRouteSameUnhashed(codec: Codec, before: Request, after: Request)
    requires Gathers(codec, before) && Gathers(codec, after) && before.packJson == after.packJson
    requires before.cfg.env == after.cfg.env && before.cfg.stagingBucket == after.cfg.stagingBucket
    requires before.cfg.packInlineLimitBytes == after.cfg.packInlineLimitBytes
    requires before.cfg.observability == after.cfg.observability
    ensures SameUnhashed(WithUri(InputOf(codec, before)), WithUri(InputOf(codec, after)))
  {}

  lemma SameHashes(
    codec: Codec, c: Cloud, before: Request, prior: State, after: Request, kept: Engines, drift: seq<string>,
    agent: string
  )
    requires Gathers(codec, before) && Gathers(codec, after) && TellsApart(codec, before, after)
    requires Consistent(c, prior.engines) && PlansNoChange(codec, c, before, prior, after, kept, drift, agent)
    ensures before.packJson == after.packJson
    ensures ConfigFingerprint(before.cfg, before.bindings, before.toolSpecs)
            == ConfigFingerprint(after.cfg, after.bindings, after.toolSpecs)
  {
    var input := InputOf(codec, before);
    var stop, slip := ApplyStops(codec, c, input, AgentsOf(codec, before), prior);
    hide SpecsOf, Keeps, EnginesApplied, Deployed, Rewritten, Staged;
  }

  // ---- After a partial failure ----

  lemma {:induction false} StopsInPrefix(
    buildable: bool, specs: Specs, c: Cloud, agents: seq<string>, prior: Engines, next: State, i: nat
  )
    requires i < |agents| && forall j, k | 0 <= j < k < |agents| :: agents[j] != agents[k]
    requires AgentsApplied(buildable, specs, c, agents, prior, next).err == Some(AgentFailed(agents[i]))
    ensures AgentsApplied(buildable, specs, c, agents[..i + 1], prior, next) == AgentsApplied(buildable, specs, c,
        agents, prior, next)
    decreases |agents|
  {
    var (d, made) := OneApplied(buildable, specs, c, agents[0], prior);
    if made.Some? {
      var next' := next.(engines := Record(next.engines, agents[0], made.value));
      if i > 0 {
        StopsInPrefix(buildable, specs, d, agents[1..], prior, next', i - 1);
        assert agents[..i + 1][1..] == agents[1..][..i];
      } else {
        ErrorNamesAgent(buildable, specs, d, agents[1..], prior, next');
      }
    }
  }

  lemma {:induction false} ErrorNamesAgent(buildable: bool, specs: Specs, c: Cloud, agents: seq<string>,
      prior: Engines, next: State)
    ensures var r := AgentsApplied(buildable, specs, c, agents, prior, next);
            r.err.Some? ==> r.err.value.AgentFailed? && r.err.value.agent in agents
    decreases |agents|
  {
    if agents != [] {
      var (d, made) := OneApplied(buildable, specs, c, agents[0], prior);
      if made.Some? {
        var next' := next.(engines := Record(next.engines, agents[0], made.value));
        ErrorNamesAgent(buildable, specs, d, agents[1..], prior, next');
      }
    }
  }

  lemma {:induction false} DeleteErrorKind(c: Cloud, names: seq<string>, next: State)
    requires forall n :: n in names ==> n in next.engines
    requires forall i, j | 0 <= i < j < |names| :: names[i] != names[j]
    ensures var r := NamesDeleted(c, names, next);
            r.err.Some? ==> r.err.value.DeleteFailed?
    decreases |names|
  {
    if names != [] {
      assert forall n :: n in names[1..] ==> n in names && n != names[0];
      var d := Deleting(c, next.engines[names[0]].name).0;
      DeleteErrorKind(d, names[1..], next.(engines := next.engines - {names[0]}));
    }
  }

  // An apply that names an agent as failed is its own agent loop, cut short.
  lemma AgentErrorEndsApply(
    codec: Codec, c: Cloud, input: EngineInput, agents: seq<string>, prior: State, agent: string
  )
    requires EnginesApplied(codec, c, input, agents, prior).err == Some(AgentFailed(agent))
    ensures Staged(c, input, prior).1.Ok?
    ensures var ready := ReadyInput(c, input, prior);
            EnginesApplied(codec, c, input, agents, prior)
            == AgentsApplied(Buildable(codec, ready), SpecsOf(codec, ready), Staged(c, input, prior).0, agents,
                             prior.engines, StartState(ready, prior))
  {
    if Staged(c, input, prior).1.Ok? {
      var ready := ReadyInput(c, input, prior);
      var mid := AgentsApplied(Buildable(codec, ready), SpecsOf(codec, ready), Staged(c, input, prior).0, agents,
                               prior.engines, StartState(ready, prior));
      hide Buildable, SpecsOf, AgentsApplied;
      var removed := SortedNames(mid.state.engines.Keys - Names(agents));
      SortedNamesDistinct(removed);
      DeleteErrorKind(mid.cloud, removed, mid.state);
    }
  }

  // Handling some agents leaves another agent's record and engine alone.
  lemma OthersUntouched(
    buildable: bool, specs: Specs, c: Cloud, agents: seq<string>, prior: Engines, start: State, other: string
  )
    requires Consistent(c, prior) && Ascending(agents) && start.engines == prior
    requires other in prior && other !in agents
    ensures var r := AgentsApplied(buildable, specs, c, agents, prior, start);
            var name := prior[other].name;
            && other in r.state.engines && r.state.engines[other] == prior[other]
            && (name in c.engines ==> name in r.cloud.lost || Serves(r.cloud, name, c.engines[name]))
            && r.state == start.(engines := r.state.engines)
  {
    var mine := set a | a in agents && a in prior :: prior[a].name;
    assert prior[other].name !in mine;
    assert Ready(specs, c.lost, c, prior, start.engines, agents, {}, mine);
    var reached, slip := AgentsFacts(buildable, specs, c.lost, c, agents, prior, start, {}, mine);
  }

  lemma LostStaysLost(buildable: bool, specs: Specs, c: Cloud, agents: seq<string>, prior: Engines, start: State)
    requires Consistent(c, prior) && Ascending(agents) && start.engines == prior
    ensures c.lost <= AgentsApplied(buildable, specs, c, agents, prior, start).cloud.lost
  {
    AgentsEnter(specs, c, c, agents, prior);
    var reached, slip := AgentsFacts(buildable, specs, c.lost, c, agents, prior, start, {}, Recorded(prior));
  }

  // This engine runs what it ran, or was lost out of band.
  ghost predicate Unchanged(c: Cloud, d: Cloud, name: ResourceName) {
    c.lost <= d.lost && (name in c.engines ==> name in d.lost || Serves(d, name, c.engines[name]))
  }

  // A loop that stopped at agent i left every later agent as it was.
  lemma UnreachedInLoop(
    buildable: bool, specs: Specs, c: Cloud, agents: seq<string>, prior: Engines, start: State, i: nat, j: nat
  )
    requires Consistent(c, prior) && Ascending(agents) && start.engines == prior
    requires i < j < |agents| && agents[j] in prior
    requires AgentsApplied(buildable, specs, c, agents, prior, start).err == Some(AgentFailed(agents[i]))
    ensures Unchanged(c, AgentsApplied(buildable, specs, c, agents, prior, start).cloud, prior[agents[j]].name)
  {
    var few := agents[..i + 1];
    SortedNamesDistinct(agents);
    StopsInPrefix(buildable, specs, c, agents, prior, start, i);
    hide AgentsApplied, Consistent;
    assert agents[j] !in few;
    OthersUntouched(buildable, specs, c, few, prior, start, agents[j]);
    LostStaysLost(buildable, specs, c, few, prior, start);
  }

  // Staging touches no engine.
  lemma StagingUnchanged(c: Cloud, input: EngineInput, prior: State, name: ResourceName)
    requires Consistent(c, prior.engines)
    ensures Unchanged(c, Staged(c, input, prior).0, name) && Consistent(Staged(c, input, prior).0, prior.engines)
  {
    StagedFacts(c, input, prior);
    hide Staged, SaneCloud, Distinct, Owned;
  }

  lemma UnchangedTransitive(c: Cloud, d: Cloud, e: Cloud, name: ResourceName)
    requires Unchanged(c, d, name) && Unchanged(d, e, name)
    ensures Unchanged(c, e, name)
  {}

  lemma UnreachedUnchanged(
    codec: Codec, c: Cloud, input: EngineInput, agents: seq<string>, prior: State, i: nat, j: nat
  )
    requires Consistent(c, prior.engines) && Ascending(agents) && i < j < |agents| && agents[j] in prior.engines
    requires EnginesApplied(codec, c, input, agents, prior).err == Some(AgentFailed(agents[i]))
    ensures Unchanged(c, EnginesApplied(codec, c, input, agents, prior).cloud, prior.engines[agents[j]].name)
  {
    var name := prior.engines[agents[j]].name;
    AgentErrorEndsApply(codec, c, input, agents, prior, agents[i]);
    StagingUnchanged(c, input, prior, name);
    var d, ready := Staged(c, input, prior).0, ReadyInput(c, input, prior);
    hide EnginesApplied, AgentsApplied, Unchanged, Consistent, Staged, ReadyInput, Buildable, SpecsOf;
    var start := StartState(ready, prior);
    UnreachedInLoop(Buildable(codec, ready), SpecsOf(codec, ready), d, agents, prior.engines, start, i, j);
    UnchangedTransitive(c, d, EnginesApplied(codec, c, input, agents, prior).cloud, name);
  }

  // How many agents an apply that stopped here had settled.
  function Reached(stop: Stop, agents: seq<string>): nat {
    match stop
    case AtStaging => 0
    case AtAgent(i) => i
    case AtDelete(_) => |agents|
    case Finished => |agents|
  }

  // A plan of the very same request says this recorded agent is up to date. Unless its
  // engine was lost while the apply ran, it runs its spec exactly when the apply had
  // settled the agent, or it already did.
  ghost predicate UpToDateExactlyWhen(
    codec: Codec, c: Cloud, req: Request, prior: State, reached: nat, j: nat
  )
    requires Gathers(codec, req) && j < |AgentsOf(codec, req)|
  {
    var agent := AgentsOf(codec, req)[j];
    var spec := BuiltSpec(codec, WithUri(InputOf(codec, req)), agent);
    var r := EnginesApplied(codec, c, InputOf(codec, req), AgentsOf(codec, req), prior);
    && agent in r.state.engines
    && Plan.EngineAction(PlanOver(codec, req, AgentsOf(codec, req), r.state, []), agent) == Plan.NoChange
    && var name := r.state.engines[agent].name;
       name !in r.cloud.lost - c.lost
       ==> (Serves(r.cloud, name, spec)
            <==> j < reached || (agent in prior.engines && name == prior.engines[agent].name && Serves(c, name, spec)))
  }

  // Wherever an apply stopped past staging the new hashes are stored, so this holds of
  // every agent it left recorded.
  lemma NoChangeAfterAnyStop(codec: Codec, c: Cloud, req: Request, prior: State, j: nat) returns (stop: Stop)
    requires Gathers(codec, req) && Consistent(c, prior.engines) && j < |AgentsOf(codec, req)|
    ensures var input, agents := InputOf(codec, req), AgentsOf(codec, req);
            var r := EnginesApplied(codec, c, input, agents, prior);
            && StoppedAt(stop, codec, c, input, agents, prior, r)
            && (!stop.AtStaging? && agents[j] in r.state.engines
                ==> UpToDateExactlyWhen(codec, c, req, prior, Reached(stop, agents), j))
  {
    var input, agents := InputOf(codec, req), AgentsOf(codec, req);
    var r := EnginesApplied(codec, c, input, agents, prior);
    var slip;
    stop, slip := ApplyStops(codec, c, input, agents, prior);
    SortedNamesDistinct(agents);
    if !stop.AtStaging? && agents[j] in r.state.engines {
      NewHashesNoChange(stop, codec, c, req, prior, r, j);
      hide EnginesApplied, BuiltSpec, Rewritten, Deployed, Header, Gathers, InputOf, AgentsOf;
      ReadyHasUri(c, input, prior);
      var spec := BuiltSpec(codec, WithUri(input), agents[j]);
      if j < Reached(stop, agents) {
        SettledServes(stop, codec, c, input, agents, prior, r, j);
        hide StoppedAt, Keeps, Consistent;
      } else {
        StoppedBefore(stop, codec, c, input, agents, prior, r, j);
        UnreachedUnchanged(codec, c, input, agents, prior, stop.reached, j);
        hide StoppedAt;
        NeverComesBack(c, r.cloud, prior.engines, agents[j], spec);
        hide Keeps, Consistent, Unchanged;
      }
    }
  }

  lemma NewHashesNoChange(stop: Stop, codec: Codec, c: Cloud, req: Request, prior: State, r: Applied, j: nat)
    requires Gathers(codec, req) && j < |AgentsOf(codec, req)| && !stop.AtStaging?
    requires StoppedAt(stop, codec, c, InputOf(codec, req), AgentsOf(codec, req), prior, r)
    requires Consistent(r.cloud, r.state.engines) && AgentsOf(codec, req)[j] in r.state.engines
    ensures var agents := AgentsOf(codec, req);
            Plan.EngineAction(PlanOver(codec, req, agents, r.state, []), agents[j]) == Plan.NoChange
  {
    hide Rewritten, Deployed, SpecsOf, Gathers;
  }

  lemma SettledServes(
    stop: Stop, codec: Codec, c: Cloud, input: EngineInput, agents: seq<string>, prior: State, r: Applied, j: nat
  )
    requires StoppedAt(stop, codec, c, input, agents, prior, r) && !stop.AtStaging?
    requires j < Reached(stop, agents) <= |agents|
    ensures agents[j] in r.state.engines
    ensures var name := r.state.engines[agents[j]].name;
            || Serves(r.cloud, name, BuiltSpec(codec, ReadyInput(c, input, prior), agents[j]))
            || name in r.cloud.lost - c.lost
  {
    hide BuiltSpec, Rewritten, Header;
    assert agents[j] in Names(agents[..Reached(stop, agents)]) by {
      assert agents[..Reached(stop, agents)][j] == agents[j];
    }
    assert agents[..|agents|] == agents;
  }

  lemma StoppedBefore(
    stop: Stop, codec: Codec, c: Cloud, input: EngineInput, agents: seq<string>, prior: State, r: Applied, j: nat
  )
    requires StoppedAt(stop, codec, c, input, agents, prior, r) && !stop.AtStaging? && Ascending(agents)
    requires Reached(stop, agents) <= j < |agents| && agents[j] in r.state.engines
    ensures stop.AtAgent? && stop.reached < j && r.err == Some(AgentFailed(agents[stop.reached]))
    ensures agents[j] in prior.engines && r.state.engines[agents[j]] == prior.engines[agents[j]]
  {
    hide SpecsOf, Deployed, Header;
    SortedNamesDistinct(agents);
    assert agents[j] !in agents[..stop.reached];
  }

  // An engine that was not live before the apply is not live after it.
  lemma NeverComesBack(c: Cloud, d: Cloud, prior: Engines, agent: string, spec: EngineSpec)
    requires Consistent(c, prior) && agent in prior && Evolves(c, d, Recorded(prior)) && SaneCloud(d)
    requires Unchanged(c, d, prior[agent].name)
    ensures prior[agent].name !in d.lost - c.lost
            ==> (Serves(d, prior[agent].name, spec) <==> Serves(c, prior[agent].name, spec))
  {}

  // ---- A stale answer ----

  // The agent has a record and a live engine behind it.
  ghost predicate Live(c: Cloud, engines: Engines, agent: string) {
    agent in engines && engines[agent].name in c.engines
  }

  lemma FirstUpdateFails(codec: Codec, c: Cloud, input: EngineInput, agents: seq<string>, prior: State)
    requires Consistent(c, prior.engines) && agents != [] && Live(c, prior.engines, agents[0])
    requires input.delivery.inlined && Buildable(codec, WithUri(input)) && c.fate(|c.log|) == Fate({}, FailEarly)
    ensures var r := EnginesApplied(codec, c, input, agents, prior);
            && r.err == Some(AgentFailed(agents[0])) && r.cloud.engines == c.engines
            && r.cloud.fate == c.fate && |r.cloud.log| == |c.log| + 1
            && r.state == StartState(WithUri(input), prior).(engines := prior.engines - {agents[0]})
  {
    var specs := SpecsOf(codec, WithUri(input));
    assert Staged(c, input, prior) == (c, Ok(""));
    ReadyHasUri(c, input, prior);
    hide Buildable, SpecsOf, Consistent;
    assert prior.engines[agents[0]].name != NO_NAME;
    assert c.engines - {} == c.engines;
  }

  ghost predicate StaleAnswer(codec: Codec, c: Cloud, req: Request, prior: State, agent: string)
    requires Gathers(codec, req) && Live(c, prior.engines, agent)
  {
    var r := EnginesApplied(codec, c, InputOf(codec, req), AgentsOf(codec, req), prior);
    var name := prior.engines[agent].name;
    && r.err.Some? && agent in r.state.engines && r.state.engines[agent].name == name
    && Serves(r.cloud, name, c.engines[name])
    && !Serves(r.cloud, name, BuiltSpec(codec, WithUri(InputOf(codec, req)), agent))
    && Plan.EngineAction(PlanOver(codec, req, AgentsOf(codec, req), r.state, []), agent) == Plan.NoChange
  }

  // The engine recorded for this agent is live and does not run the wanted spec.
  ghost predicate RunsOther(codec: Codec, c: Cloud, req: Request, engines: Engines, agent: string)
    requires Gathers(codec, req)
  {
    Live(c, engines, agent) && c.engines[engines[agent].name] != BuiltSpec(codec, WithUri(InputOf(codec, req)), agent)
  }

  // When the first agent's update fails, any later agent's engine that runs another
  // spec than the wanted one keeps it, and the plan says it is up to date.
  lemma FailedUpdateIsStale(codec: Codec, c: Cloud, req: Request, prior: State, first: string, second: string)
    requires Gathers(codec, req) && Consistent(c, prior.engines)
    requires AgentsOf(codec, req)[0] == first && second in AgentsOf(codec, req) && first != second
    requires DecidePackDelivery(req.packJson, req.cfg).inlined && Buildable(codec, WithUri(InputOf(codec, req)))
    requires c.fate(|c.log|) == Fate({}, FailEarly)
    requires Live(c, prior.engines, first) && RunsOther(codec, c, req, prior.engines, second)
    ensures StaleAnswer(codec, c, req, prior, second)
  {
    var input, agents := InputOf(codec, req), AgentsOf(codec, req);
    hide BuiltSpec, Buildable, EnginesApplied, Plan.EngineAction;
    FirstUpdateFails(codec, c, input, agents, prior);
    var r := EnginesApplied(codec, c, input, agents, prior);
    assert r.state.packHash == input.packHash && r.state.configHash == input.configHash;
    assert r.state.engines == prior.engines - {first};
    hide StartState, WithUri, Gathers, InputOf, AgentsOf, SaneCloud, Distinct;
    SameHashesNoChange(codec, req, r.state, second);
    assert r.err.Some?;
    assert second in r.state.engines;
    var name := prior.engines[second].name;
    assert r.state.engines[second].name == name;
    assert Serves(r.cloud, name, c.engines[name]);
    assert !Serves(r.cloud, name, BuiltSpec(codec, WithUri(InputOf(codec, req)), second));
  }

  lemma SameHashesNoChange(codec: Codec, req: Request, s: State, agent: string)
    requires Gathers(codec, req) && agent in s.engines && !s.engines[agent].inFlight
    requires s.packHash == InputOf(codec, req).packHash && s.configHash == InputOf(codec, req).configHash
    ensures Plan.EngineAction(PlanOver(codec, req, AgentsOf(codec, req), s, []), agent) == Plan.NoChange
  {}
}
