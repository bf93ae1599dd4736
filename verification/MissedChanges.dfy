/** Runs after which a plan says "no change" of an engine that does not run what the
    planned request asks for. */
module MissedChanges {
  import opened Texts
  import opened AdapterState
  import opened Inputs
  import opened EngineSpecs
  import opened ControlPlane
  import opened Apply
  import opened ApplyFacts
  import opened ApplyTheorems
  import opened Convergence
  import opened NoChangeSoundness
  import opened Prediction
  import opened Runs
  import Plan
  import Provider

  // Plan and apply both accept the request, and its pack travels inline.
  ghost predicate Deploys(codec: Codec, req: Request) {
    && Gathers(codec, req) && HasLlm(req.bindings) && !req.cfg.dryRun
    && DecidePackDelivery(req.packJson, req.cfg).inlined && Buildable(codec, WithUri(InputOf(codec, req)))
  }

  ghost function SpecFor(codec: Codec, req: Request, agent: string): EngineSpec
    requires Gathers(codec, req)
  {
    BuiltSpec(codec, WithUri(InputOf(codec, req)), agent)
  }

  // The plan of this request says the agent is up to date, where its engine is live and
  // runs this spec.
  ghost predicate SaysNoChange(codec: Codec, w: World, req: Request, agent: string, running: EngineSpec) {
    && Plannable(codec, w, req)
    && Plan.Change(Plan.AgentRuntime, agent, Plan.NoChange) in Provider.PlanOf(codec, w, req)
    && agent in Prior(w).engines && Serves(w.cloud, Prior(w).engines[agent].name, running)
  }

  // With no fault left, a plan says so of a live record exactly when both hashes it
  // compares are the stored ones.
  lemma StoredHashesMeanNoChange(codec: Codec, w: World, req: Request, agent: string, running: EngineSpec)
    requires Healthy(w) && Calm(w.cloud) && Plannable(codec, w, req)
    requires agent in Prior(w).engines && Serves(w.cloud, Prior(w).engines[agent].name, running)
    requires agent in AgentNames(codec.view(req.packJson).value)
    ensures SaysNoChange(codec, w, req, agent, running)
            <==> && Prior(w).packHash == codec.hash(req.packJson)
                 && Prior(w).configHash == HashPlanConfig(codec, req.cfg, req.bindings, req.toolSpecs)
  {
    hide ParseSpec, OwnCalls, OnlyUnknown, ValidStructure, HasLlm;
    CalmReconcile(w.cloud, Prior(w));
    var verified := Provider.Verified(w, req);
    hide Plan.StateReconciled, Calm, Plan.Planned;
    assert agent in verified.state.engines && !Prior(w).engines[agent].inFlight;
    var planned := Plan.PlanInput(
      SortedNames(AgentNames(codec.view(req.packJson).value)), verified.state, codec.hash(req.packJson),
      HashPlanConfig(codec, req.cfg, req.bindings, req.toolSpecs), DecidePackDelivery(req.packJson, req.cfg),
      verified.drift);
    Plan.PlanActions(planned, agent);
  }

  // ---- After an apply whose first update failed ----

  // One call, at this position of the log, fails without effect, and nothing disappears.
  ghost predicate FailsOnlyAt(fate: nat -> Fate, k: nat) {
    forall t: nat :: fate(t) == Fate({}, if t == k then FailEarly else Fine)
  }

  // Creating every agent's engine before that call: one create each, all working.
  lemma {:induction false} FreshCreates(specs: Specs, c: Cloud, agents: seq<string>, next: State, k: nat)
    requires FailsOnlyAt(c.fate, k) && |c.log| + |agents| <= k
    ensures var r := AgentsApplied(true, specs, c, agents, map[], next);
            && r.err.None? && r.cloud.fate == c.fate && |r.cloud.log| == |c.log| + |agents| && r.cloud.lost == c.lost
            && r.state.engines.Keys == next.engines.Keys + Names(agents)
    decreases |agents|
  {
    if agents != [] {
      var (d, made) := OneApplied(true, specs, c, agents[0], map[]);
      assert c.fate(|c.log|) == Fate({}, Fine);
      assert made.Some? && d.fate == c.fate && |d.log| == |c.log| + 1 && d.lost == c.lost;
      var next' := next.(engines := next.engines[agents[0] := EngineState(made.value, false)]);
      FreshCreates(specs, d, agents[1..], next', k);
      assert Names(agents) == {agents[0]} + Names(agents[1..]);
    }
  }

  ghost predicate FreshlyApplied(codec: Codec, c: Cloud, input: EngineInput, agents: seq<string>, r: Applied) {
    && r.err.None? && r.cloud.fate == c.fate && |r.cloud.log| == |c.log| + |agents| && r.cloud.lost == c.lost
    && Converged(codec, r.cloud, WithUri(input), agents, r.state)
  }

  lemma FreshApply(codec: Codec, c: Cloud, input: EngineInput, agents: seq<string>, prior: State, k: nat)
    requires Consistent(c, prior.engines) && prior.engines == map[] && Ascending(agents)
    requires input.delivery.inlined && Buildable(codec, WithUri(input))
    requires FailsOnlyAt(c.fate, k) && |c.log| + |agents| <= k
    ensures FreshlyApplied(codec, c, input, agents, EnginesApplied(codec, c, input, agents, prior))
  {
    var stop, slip := ApplyStops(codec, c, input, agents, prior);
    var r := EnginesApplied(codec, c, input, agents, prior);
    assert Staged(c, input, prior) == (c, Ok(""));
    var mid := AppliedInParts(codec, c, input, agents, prior);
    FreshCreates(SpecsOf(codec, WithUri(input)), c, agents, StartState(WithUri(input), prior), k);
    hide EnginesApplied, AgentsApplied, SpecsOf, Buildable, Keeps, Consistent;
    ListingUnique(SortedNames(mid.state.engines.Keys - Names(agents)), [], {});
    assert r == mid;
    StopIsFinished(stop, codec, c, input, agents, prior, r);
    FinishedCalmly(codec, c, input, agents, prior, r);
    ReadyHasUri(c, input, prior);
  }

  // The older request is deployed, and the next call is the one that fails.
  ghost predicate DeployedOnce(codec: Codec, w: World, older: Request)
    requires Gathers(codec, older)
  {
    && Healthy(w) && FailsOnlyAt(w.cloud.fate, |w.cloud.log|)
    && Converged(codec, w.cloud, WithUri(InputOf(codec, older)), AgentsOf(codec, older), Prior(w))
  }

  ghost predicate Untried(codec: Codec, w: World, older: Request)
    requires Gathers(codec, older)
  {
    && Healthy(w) && Prior(w).engines == map[] && w.cloud.log == []
    && FailsOnlyAt(w.cloud.fate, |AgentsOf(codec, older)|)
  }

  lemma AppliesFreshly(codec: Codec, w: World, older: Request)
    requires Deploys(codec, older) && Untried(codec, w, older)
    ensures Reaches(codec, w, older)
    ensures FreshlyApplied(codec, w.cloud, InputOf(codec, older), AgentsOf(codec, older), ApplyOf(codec, w, older))
  {
    hide Buildable, FreshlyApplied, EnginesApplied, ParseSpec, FailsOnlyAt, ValidStructure, OwnCalls, OnlyUnknown;
    assert InputOf(codec, older).delivery.inlined;
    hide Gathers, InputOf, HasLlm;
    var agents := AgentsOf(codec, older);
    hide AgentsOf;
    FreshApply(codec, w.cloud, InputOf(codec, older), agents, Prior(w), |agents|);
  }

  lemma DeploysFrom(codec: Codec, w: World, older: Request)
    requires Deploys(codec, older) && Untried(codec, w, older)
    ensures DeployedOnce(codec, Exec(codec, w, ApplyEvent(older)), older)
  {
    hide Buildable, EnginesApplied, ParseSpec, FailsOnlyAt, Gathers, InputOf, AgentsOf, Converged, Exec, ApplyOf,
         OwnCalls, OnlyUnknown, Consistent, WithUri;
    AppliesFreshly(codec, w, older);
    ApplyLeaves(codec, w, older);
  }

  lemma NothingTried(codec: Codec, fate: nat -> Fate, older: Request)
    requires Gathers(codec, older) && FailsOnlyAt(fate, |AgentsOf(codec, older)|)
    ensures Untried(codec, EmptyWorld(fate), older)
  {
    EmptyIsHealthy(fate);
    hide Gathers, Healthy, AgentsOf;
  }

  lemma FirstDeploys(codec: Codec, fate: nat -> Fate, older: Request)
    requires Deploys(codec, older) && FailsOnlyAt(fate, |AgentsOf(codec, older)|)
    ensures DeployedOnce(codec, Run(codec, EmptyWorld(fate), [ApplyEvent(older)]), older)
  {
    assert Gathers(codec, older);
    hide Deploys, Untried, DeployedOnce, EmptyWorld, FailsOnlyAt, Gathers, AgentsOf, Exec;
    NothingTried(codec, fate, older);
    DeploysFrom(codec, EmptyWorld(fate), older);
    RunOne(codec, EmptyWorld(fate), ApplyEvent(older));
    hide Run;
  }

  // What the failed apply of the newer request leaves: the engines as they were, and
  // the newer hashes over every record but the first.
  ghost predicate LeftBehind(codec: Codec, w: World, v: World, newer: Request)
    requires Gathers(codec, newer) && ParseSpec(w.stored).Ok? && ParseSpec(v.stored).Ok?
  {
    && Calm(v.cloud) && v.cloud.engines == w.cloud.engines
    && Prior(v).engines == Prior(w).engines - {AgentsOf(codec, newer)[0]}
    && Prior(v).packHash == codec.hash(newer.packJson)
    && Prior(v).configHash == HashPlanConfig(codec, newer.cfg, newer.bindings, newer.toolSpecs)
  }

  ghost predicate SecondStops(codec: Codec, w: World, newer: Request)
    requires Reaches(codec, w, newer)
  {
    var r, first := ApplyOf(codec, w, newer), AgentsOf(codec, newer)[0];
    && r.err == Some(AgentFailed(first)) && r.cloud.engines == w.cloud.engines
    && r.cloud.fate == w.cloud.fate && |r.cloud.log| == |w.cloud.log| + 1
    && r.state == StartState(WithUri(InputOf(codec, newer)), Prior(w)).(engines := Prior(w).engines - {first})
  }

  lemma SecondUpdateFails(codec: Codec, w: World, older: Request, newer: Request)
    requires Deploys(codec, older) && Deploys(codec, newer) && older.packJson == newer.packJson
    requires DeployedOnce(codec, w, older)
    ensures Reaches(codec, w, newer) && SecondStops(codec, w, newer)
  {
    hide Buildable, EnginesApplied, ParseSpec, ValidStructure, OwnCalls, OnlyUnknown, HasLlm, SpecsOf, WithUri,
         StartState;
    var agents := AgentsOf(codec, newer);
    assert InputOf(codec, newer).delivery.inlined && agents == AgentsOf(codec, older);
    hide Gathers, InputOf, AgentsOf;
    assert agents[0] in Names(agents) && Live(w.cloud, Prior(w).engines, agents[0]);
    hide Consistent, Converged;
    FirstUpdateFails(codec, w.cloud, InputOf(codec, newer), agents, Prior(w));
  }

  lemma SecondFails(codec: Codec, w: World, older: Request, newer: Request)
    requires Deploys(codec, older) && Deploys(codec, newer) && older.packJson == newer.packJson
    requires DeployedOnce(codec, w, older)
    ensures var v := Exec(codec, w, ApplyEvent(newer));
            && Healthy(v) && FailsAtAgent(codec, w, ApplyEvent(newer)) && LeftBehind(codec, w, v, newer)
  {
    hide Buildable, EnginesApplied, ParseSpec, AgentsOf, Converged, Exec, ApplyOf, OwnCalls, OnlyUnknown,
         Consistent;
    SecondUpdateFails(codec, w, older, newer);
    ApplyLeaves(codec, w, newer);
    StartHashes(codec, newer, Prior(w));
    hide Gathers, InputOf, WithUri, StartState;
  }

  lemma StartHashes(codec: Codec, newer: Request, prior: State)
    requires Gathers(codec, newer)
    ensures var s := StartState(WithUri(InputOf(codec, newer)), prior);
            && s.packHash == codec.hash(newer.packJson)
            && s.configHash == HashPlanConfig(codec, newer.cfg, newer.bindings, newer.toolSpecs)
  {
    hide Gathers;
  }

  lemma SecondMisses(codec: Codec, w: World, older: Request, newer: Request, agent: string)
    requires Deploys(codec, older) && Deploys(codec, newer) && older.packJson == newer.packJson
    requires DeployedOnce(codec, w, older)
    requires agent in AgentsOf(codec, older) && agent != AgentsOf(codec, older)[0]
    ensures FailsAtAgent(codec, w, ApplyEvent(newer))
    ensures SaysNoChange(codec, Exec(codec, w, ApplyEvent(newer)), newer, agent, SpecFor(codec, older, agent))
  {
    hide Buildable, Exec, FailsAtAgent, SaysNoChange, ValidStructure, ParseSpec, BuiltSpec, WithUri, InputOf;
    assert agent in Names(AgentsOf(codec, older)) && AgentsOf(codec, older) == AgentsOf(codec, newer);
    SecondFails(codec, w, older, newer);
    var v := Exec(codec, w, ApplyEvent(newer));
    assert Plannable(codec, v, newer) && agent in AgentNames(codec.view(newer.packJson).value);
    hide Plannable, Gathers, AgentsOf, Healthy;
    StoredHashesMeanNoChange(codec, v, newer, agent, SpecFor(codec, older, agent));
  }

  // For all requests over one pack: after a fault-free apply of the older one and an
  // apply of the newer one whose first update fails, a plan of the newer one says "no
  // change" of every other agent, and their engines run the older one's spec.
  lemma FailedUpdateIsMissed(codec: Codec, fate: nat -> Fate, older: Request, newer: Request, agent: string)
    requires Deploys(codec, older) && Deploys(codec, newer) && older.packJson == newer.packJson
    requires FailsOnlyAt(fate, |AgentsOf(codec, older)|)
    requires agent in AgentsOf(codec, older) && agent != AgentsOf(codec, older)[0]
    ensures var w := Run(codec, EmptyWorld(fate), [ApplyEvent(older)]);
            var v := Run(codec, EmptyWorld(fate), [ApplyEvent(older), ApplyEvent(newer)]);
            && FailsAtAgent(codec, w, ApplyEvent(newer))
            && SaysNoChange(codec, v, newer, agent, SpecFor(codec, older, agent))
  {
    var w := Run(codec, EmptyWorld(fate), [ApplyEvent(older)]);
    FirstDeploys(codec, fate, older);
    assert Gathers(codec, older) && Gathers(codec, newer);
    hide EmptyWorld, Run, Exec, Deploys, FailsAtAgent, AgentsOf, SaysNoChange, DeployedOnce, SpecFor, Gathers;
    SecondMisses(codec, w, older, newer, agent);
    RunOne(codec, EmptyWorld(fate), ApplyEvent(older));
    RunTwo(codec, EmptyWorld(fate), ApplyEvent(older), ApplyEvent(newer));
  }

  // ---- After an apply that worked ----

  // The request is deployed, its hashes are stored, and no fault is left.
  ghost predicate DeployedCleanly(codec: Codec, v: World, before: Request)
    requires Gathers(codec, before)
  {
    && Healthy(v) && Calm(v.cloud)
    && Converged(codec, v.cloud, WithUri(InputOf(codec, before)), AgentsOf(codec, before), Prior(v))
    && Prior(v).packHash == codec.hash(before.packJson)
    && Prior(v).configHash == HashPlanConfig(codec, before.cfg, before.bindings, before.toolSpecs)
  }

  ghost predicate StoresHashes(input: EngineInput, r: Applied) {
    r.state.packHash == input.packHash && r.state.configHash == input.configHash
  }

  lemma WorkingApply(codec: Codec, c: Cloud, input: EngineInput, agents: seq<string>, prior: State)
    requires Consistent(c, prior.engines) && Ascending(agents) && agents != [] && Calm(c)
    requires EnginesApplied(codec, c, input, agents, prior).err.None?
    ensures var r := EnginesApplied(codec, c, input, agents, prior);
            && StoresHashes(input, r) && Calm(r.cloud)
            && Converged(codec, r.cloud, WithUri(input), agents, r.state)
  {
    var r := EnginesApplied(codec, c, input, agents, prior);
    var stop, slip := ApplyStops(codec, c, input, agents, prior);
    ApplyConverges(codec, c, input, agents, prior);
    hide EnginesApplied, Converged, Calm, Consistent, Keeps, Staged, SpecsOf;
    ReadyHasUri(c, input, prior);
  }

  lemma DeploysCleanly(codec: Codec, w: World, before: Request)
    requires Healthy(w) && Calm(w.cloud) && Reaches(codec, w, before) && ApplyOf(codec, w, before).err.None?
    ensures DeployedCleanly(codec, Exec(codec, w, ApplyEvent(before)), before)
  {
    hide EnginesApplied, Calm, Converged, ParseSpec, ValidStructure, OwnCalls, OnlyUnknown, Exec, WithUri;
    assert InputOf(codec, before).packHash == codec.hash(before.packJson);
    assert InputOf(codec, before).configHash
           == HashPlanConfig(codec, before.cfg, before.bindings, before.toolSpecs);
    ApplyLeaves(codec, w, before);
    hide Gathers, InputOf;
    WorkingApply(codec, w.cloud, InputOf(codec, before), AgentsOf(codec, before), Prior(w));
    hide AgentsOf;
  }

  ghost predicate SameHashed(p: Request, q: Request) {
    && p.packJson == q.packJson
    && ConfigFingerprint(p.cfg, p.bindings, p.toolSpecs) == ConfigFingerprint(q.cfg, q.bindings, q.toolSpecs)
  }

  lemma CleanlyNoChange(codec: Codec, v: World, before: Request, after: Request, agent: string)
    requires Gathers(codec, before) && DeployedCleanly(codec, v, before) && TellsApart(codec, before, after)
    requires Plannable(codec, v, after)
    requires agent in AgentsOf(codec, before) && agent in AgentNames(codec.view(after.packJson).value)
    ensures SaysNoChange(codec, v, after, agent, SpecFor(codec, before, agent)) <==> SameHashed(before, after)
  {
    assert agent in Names(AgentsOf(codec, before));
    hide Healthy, ParseSpec, Plannable, Gathers, BuiltSpec, WithUri, InputOf, AgentsOf, SaysNoChange,
         ConfigFingerprint, Calm;
    StoredHashesMeanNoChange(codec, v, after, agent, SpecFor(codec, before, agent));
  }

  // After a fault-free apply of one request, in any run, a plan of another says "no
  // change" of an agent exactly when pack and fingerprint are the same; and then it is
  // right exactly when the operator's variables and the pack's route are too.
  lemma NoChangeExactlyWhen(
    codec: Codec, fate: nat -> Fate, events: seq<Event>, before: Request, after: Request, agent: string
  )
    requires var w := Run(codec, EmptyWorld(fate), events);
             Calm(w.cloud) && Reaches(codec, w, before) && ApplyOf(codec, w, before).err.None?
    requires Plannable(codec, Run(codec, EmptyWorld(fate), events + [ApplyEvent(before)]), after)
    requires TellsApart(codec, before, after)
    requires agent in AgentsOf(codec, before) && agent in AgentNames(codec.view(after.packJson).value)
    ensures var v := Run(codec, EmptyWorld(fate), events + [ApplyEvent(before)]);
            SaysNoChange(codec, v, after, agent, SpecFor(codec, before, agent)) <==> SameHashed(before, after)
    ensures SameHashed(before, after) ==> Gathers(codec, after) && RightExactlyWhen(codec, before, after, agent)
  {
    var w, v := Run(codec, EmptyWorld(fate), events), Run(codec, EmptyWorld(fate), events + [ApplyEvent(before)]);
    OrphansBounded(codec, fate, events);
    OneMore(codec, EmptyWorld(fate), events, ApplyEvent(before));
    hide Run, EmptyWorld, Exec, SaysNoChange, Healthy, RightExactlyWhen, DeployedCleanly, TellsApart, Calm;
    DeploysCleanly(codec, w, before);
    CleanlyNoChange(codec, v, before, after, agent);
    if SameHashed(before, after) {
      WasBuildable(codec, w, before);
      hide Reaches, ApplyOf, Buildable;
      EqualHashesDecide(codec, before, after, agent);
    }
  }

  lemma WasBuildable(codec: Codec, w: World, before: Request)
    requires ParseSpec(w.stored).Ok? && Reaches(codec, w, before) && ApplyOf(codec, w, before).err.None?
    ensures Buildable(codec, WithUri(InputOf(codec, before)))
  {
    hide Buildable, Gathers, InputOf, AgentsOf, ParseSpec;
    SuccessWasBuildable(codec, w.cloud, InputOf(codec, before), AgentsOf(codec, before), Prior(w));
    ReadyHasUri(w.cloud, InputOf(codec, before), Prior(w));
  }
}
