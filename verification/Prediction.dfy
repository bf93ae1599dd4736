/** With no faults and an unchanged control plane, the plan says what apply will do. */
module Prediction {
  import opened Texts
  import opened AdapterState
  import opened Inputs
  import opened EngineSpecs
  import opened ControlPlane
  import opened Apply
  import opened ApplyFacts
  import opened ApplyTheorems
  import opened Convergence
  import GcsUri
  import Plan

  // Every recorded name is one the provider has handed out at some time, or empty.
  ghost predicate NamesIssued(c: Cloud, engines: Engines) {
    forall a :: a in engines ==> engines[a].name < c.next
  }

  // ---- What apply does ----

  predicate NeedsCreate(c: Cloud, prior: Engines, agent: string) {
    agent !in prior || prior[agent].name == NO_NAME || prior[agent].name !in c.engines
  }

  // Some create for this agent was called between two log positions.
  ghost predicate CreatesFor(log: seq<Call>, from: nat, to: nat, agent: string)
    requires to <= |log|
  {
    exists t :: from <= t < to && log[t].Create? && log[t].spec.displayName == agent
  }

  ghost predicate NamedSpecs(specs: Specs) {
    forall a :: specs(a).displayName == a
  }

  // Handling one agent called a create for it exactly if it needed one, and for no other.
  ghost predicate PutCalls(c: Cloud, d: Cloud, prior: Engines, agent: string) {
    && Calm(d) && SaneCloud(d) && c.log <= d.log
    && (forall n :: n < c.next ==> (n in d.engines <==> n in c.engines)) && c.next <= d.next
    && (CreatesFor(d.log, |c.log|, |d.log|, agent) <==> NeedsCreate(c, prior, agent))
    && (forall a :: a != agent ==> !CreatesFor(d.log, |c.log|, |d.log|, a))
  }

  // The calls of one agent when nothing fails.
  function PutLog(c: Cloud, spec: EngineSpec, agent: string, prior: Engines): seq<Call> {
    if agent !in prior || prior[agent].name == NO_NAME then [Create(spec)]
    else if prior[agent].name in c.engines then [Update(prior[agent].name, spec)]
    else [Update(prior[agent].name, spec), Create(spec)]
  }

  lemma CalmPutLog(c: Cloud, spec: EngineSpec, agent: string, prior: Engines)
    requires Calm(c) && SaneCloud(c) && (agent in prior ==> prior[agent].name < c.next)
    ensures var (d, made) := PutEngine(c, spec, agent, prior);
            && made.Some? && d.log == c.log + PutLog(c, spec, agent, prior) && c.next <= d.next
            && (forall n :: n < c.next ==> (n in d.engines <==> n in c.engines))
  {
    assert OutcomeOf(c).Fine?;
    if agent in prior && prior[agent].name != NO_NAME {
      assert OutcomeOf(Updating(c, prior[agent].name, spec).0).Fine?;
    }
  }

  lemma PutLogCreates(c: Cloud, d: Cloud, spec: EngineSpec, agent: string, prior: Engines)
    requires d.log == c.log + PutLog(c, spec, agent, prior) && spec.displayName == agent
    ensures CreatesFor(d.log, |c.log|, |d.log|, agent) <==> NeedsCreate(c, prior, agent)
    ensures forall a :: a != agent ==> !CreatesFor(d.log, |c.log|, |d.log|, a)
  {
    if NeedsCreate(c, prior, agent) {
      assert d.log[|d.log| - 1] == Create(spec);
    }
  }

  lemma CalmPutCalls(c: Cloud, spec: EngineSpec, agent: string, prior: Engines)
    requires Calm(c) && SaneCloud(c) && (agent in prior ==> prior[agent].name < c.next)
    requires spec.displayName == agent
    ensures var (d, made) := PutEngine(c, spec, agent, prior);
            made.Some? && PutCalls(c, d, prior, agent)
  {
    CalmPut(c, spec, agent, prior);
    CalmPutLog(c, spec, agent, prior);
    hide PutEngine, PutLog, CreatesFor, NeedsCreate, Calm, SaneCloud;
    PutLogCreates(c, PutEngine(c, spec, agent, prior).0, spec, agent, prior);
  }

  // The loop called a create for exactly the agents that needed one.
  ghost predicate LoopCalls(c: Cloud, d: Cloud, prior: Engines, agents: seq<string>, agent: string) {
    && Calm(d) && SaneCloud(d) && c.log <= d.log
    && (CreatesFor(d.log, |c.log|, |d.log|, agent) <==> agent in agents && NeedsCreate(c, prior, agent))
  }

  lemma LoopCallsCons(c: Cloud, d: Cloud, e: Cloud, prior: Engines, agents: seq<string>, agent: string)
    requires agents != [] && Ascending(agents) && NamesIssued(c, prior)
    requires PutCalls(c, d, prior, agents[0]) && LoopCalls(d, e, prior, agents[1..], agent)
    ensures LoopCalls(c, e, prior, agents, agent)
  {
    hide CreatesFor, Calm, SaneCloud;
    LogSplit(e.log, |c.log|, |d.log|, agent);
    assert d.log == e.log[..|d.log|];
    SortedNamesDistinct(agents);
    assert agent in agents <==> agent == agents[0] || agent in agents[1..];
    assert NeedsCreate(d, prior, agent) <==> NeedsCreate(c, prior, agent);
  }

  // Apply creates an engine for exactly the agents that have none to update.
  lemma {:induction false} CalmAgentCalls(
    specs: Specs, c: Cloud, agents: seq<string>, prior: Engines, next: State, agent: string
  )
    requires Calm(c) && SaneCloud(c) && NamesIssued(c, prior) && NamedSpecs(specs) && Ascending(agents)
    ensures var r := AgentsApplied(true, specs, c, agents, prior, next);
            && LoopCalls(c, r.cloud, prior, agents, agent) && r.err.None?
            && r.state.engines.Keys == next.engines.Keys + Names(agents)
    decreases |agents|
  {
    if agents == [] {
      assert !CreatesFor(c.log, |c.log|, |c.log|, agent);
    } else {
      hide PutEngine, CreatesFor, Calm, SaneCloud, LoopCalls;
      var head := agents[0];
      CalmPutCalls(c, specs(head), head, prior);
      var (d, made) := OneApplied(true, specs, c, head, prior);
      var next' := next.(engines := Record(next.engines, head, made.value));
      CalmAgentCalls(specs, d, agents[1..], prior, next', agent);
      var r := AgentsApplied(true, specs, d, agents[1..], prior, next');
      assert AgentsApplied(true, specs, c, agents, prior, next) == r;
      hide AgentsApplied, PutCalls;
      LoopCallsCons(c, d, r.cloud, prior, agents, agent);
    }
  }

  lemma LogSplit(log: seq<Call>, from: nat, mid: nat, agent: string)
    requires from <= mid <= |log|
    ensures CreatesFor(log, from, |log|, agent)
            <==> CreatesFor(log[..mid], from, mid, agent) || CreatesFor(log, mid, |log|, agent)
  {}

  lemma {:induction false} CalmDeleteCalls(c: Cloud, names: seq<string>, next: State, agent: string)
    requires Calm(c)
    requires forall n :: n in names ==> n in next.engines
    requires forall i, j | 0 <= i < j < |names| :: names[i] != names[j]
    ensures var r := NamesDeleted(c, names, next);
            && r.err.None? && c.log <= r.cloud.log
            && !CreatesFor(r.cloud.log, |c.log|, |r.cloud.log|, agent)
            && r.state.engines.Keys == next.engines.Keys - Names(names)
    decreases |names|
  {
    if names != [] {
      assert OutcomeOf(c).Fine?;
      var (d, r) := Deleting(c, next.engines[names[0]].name);
      assert forall n :: n in names[1..] ==> n in names && n != names[0];
      CalmDeleteCalls(d, names[1..], next.(engines := next.engines - {names[0]}), agent);
    }
  }

  lemma CalmLoopCalls(specs: Specs, d: Cloud, agents: seq<string>, prior: Engines, start: State, agent: string)
    requires Calm(d) && SaneCloud(d) && NamesIssued(d, prior) && NamedSpecs(specs) && Ascending(agents)
    ensures var mid := AgentsApplied(true, specs, d, agents, prior, start);
            var r := RemovedDeleted(mid.cloud, mid.state, Names(agents));
            && mid.err.None? && r.err.None? && d.log <= r.cloud.log
            && (CreatesFor(r.cloud.log, |d.log|, |r.cloud.log|, agent)
                <==> agent in agents && NeedsCreate(d, prior, agent))
            && r.state.engines.Keys == Names(agents)
  {
    CalmAgentCalls(specs, d, agents, prior, start, agent);
    var mid := AgentsApplied(true, specs, d, agents, prior, start);
    var removed := SortedNames(mid.state.engines.Keys - Names(agents));
    SortedNamesDistinct(removed);
    CalmDeleteCalls(mid.cloud, removed, mid.state, agent);
    var r := NamesDeleted(mid.cloud, removed, mid.state);
    hide CreatesFor, Calm, SaneCloud, AgentsApplied, NamesDeleted, NeedsCreate;
    LogSplit(r.cloud.log, |d.log|, |mid.cloud.log|, agent);
    assert r.cloud.log[..|mid.cloud.log|] == mid.cloud.log;
    assert Names(removed) == mid.state.engines.Keys - Names(agents);
  }

  lemma CalmApplyCalls(codec: Codec, c: Cloud, input: EngineInput, agents: seq<string>, prior: State, agent: string)
    requires Calm(c) && SaneCloud(c) && NamesIssued(c, prior.engines) && Ascending(agents)
    requires Stageable(input, prior) && Staged(c, input, prior).1.Ok? && Buildable(codec, ReadyInput(c, input, prior))
    ensures var r := EnginesApplied(codec, c, input, agents, prior);
            && r.err.None? && c.log <= r.cloud.log
            && (CreatesFor(r.cloud.log, |c.log|, |r.cloud.log|, agent)
                <==> agent in agents && NeedsCreate(c, prior.engines, agent))
            && r.state.engines.Keys == Names(agents)
  {
    var d := Staged(c, input, prior).0;
    var ready := ReadyInput(c, input, prior);
    var specs := SpecsOf(codec, ready);
    assert NamedSpecs(specs);
    StagingIsQuiet(c, input, prior);
    hide Buildable, SpecsOf, CreatesFor;
    CalmLoopCalls(specs, d, agents, prior.engines, StartState(ready, prior), agent);
    var r := EnginesApplied(codec, c, input, agents, prior);
    LogSplit(r.cloud.log, |c.log|, |d.log|, agent);
    assert r.cloud.log[..|d.log|] == d.log;
  }

  lemma StagingIsQuiet(c: Cloud, input: EngineInput, prior: State)
    requires Calm(c) && SaneCloud(c)
    ensures var d := Staged(c, input, prior).0;
            && Calm(d) && SaneCloud(d) && c.log <= d.log && d.next == c.next && d.engines == c.engines
            && forall a :: !CreatesFor(d.log, |c.log|, |d.log|, a)
  {
    assert c.fate(|c.log|) == Fate({}, Fine);
    assert c.engines - {} == c.engines;
  }

  // ---- What the plan says ----

  // With no faults a lookup finds exactly what is there and disturbs nothing.
  lemma {:induction false} CalmProbe(c: Cloud, refs: seq<string>, engines: Engines)
    requires Calm(c) && SaneCloud(c) && forall n :: n in refs ==> n in engines
    ensures var p := Plan.ProbeAll(c, refs, engines);
            && Calm(p.cloud) && SaneCloud(p.cloud) && p.cloud.engines == c.engines && p.cloud.next == c.next
            && forall n :: n in p.gone <==> n in refs && engines[n].name !in c.engines
    decreases |refs|
  {
    if refs != [] {
      assert c.fate(|c.log|) == Fate({}, Fine);
      assert c.engines - {} == c.engines;
      assert forall n :: n in refs <==> n == refs[0] || n in refs[1..];
      CalmProbe(Getting(c, engines[refs[0]].name).0, refs[1..], engines);
    }
  }

  predicate Drifted(c: Cloud, e: EngineState) {
    Plan.Settled(e) && e.name !in c.engines
  }

  lemma CalmReconcile(c: Cloud, prior: State)
    requires Calm(c) && SaneCloud(c)
    ensures var r := Plan.StateReconciled(c, prior);
            && Calm(r.cloud) && SaneCloud(r.cloud) && r.cloud.engines == c.engines && r.cloud.next == c.next
            && r.state == prior.(engines := r.state.engines)
            && (forall n :: n in r.state.engines
                            <==> n in prior.engines && !Drifted(c, prior.engines[n]))
            && (forall n :: n in r.drift
                            <==> n in prior.engines && Drifted(c, prior.engines[n]))
            && Ascending(r.drift)
  {
    CalmProbe(c, SortedNames(Plan.SettledNames(prior.engines)), prior.engines);
    Plan.ReconcilePartitions(c, prior);
  }

  ghost function PlanFor(c: Cloud, input: EngineInput, agents: seq<string>, prior: State): Plan.PlanInput {
    var r := Plan.StateReconciled(c, prior);
    Plan.PlanInput(agents, r.state, input.packHash, input.configHash, input.delivery, r.drift)
  }

  // An in-flight or nameless record that has no engine behind it: the plan keeps it,
  // apply creates it.
  predicate Overlooked(c: Cloud, prior: Engines, agent: string) {
    agent in prior && !Plan.Settled(prior[agent]) && NeedsCreate(c, prior, agent)
  }

  // ---- The prediction ----

  // The plan creates what has no record or a settled record with nothing behind it.
  lemma PlanCreates(c: Cloud, input: EngineInput, agents: seq<string>, prior: State, agent: string)
    requires Calm(c) && SaneCloud(c)
    ensures Plan.EngineAction(PlanFor(c, input, agents, prior), agent) == Plan.CreateAction
            <==> NeedsCreate(c, prior.engines, agent) && !Overlooked(c, prior.engines, agent)
  {
    CalmReconcile(c, prior);
    hide Plan.StateReconciled, SaneCloud;
  }

  // The pack can be staged and the spec built; a plan checks neither.
  ghost predicate Works(codec: Codec, input: EngineInput, prior: State) {
    Stageable(input, prior) && Buildable(codec, WithUri(input))
  }

  // A fault-free apply that does not work makes no engine call: it strikes the first
  // agent's record when it got past staging, and otherwise changes no record.
  lemma BrokenApply(codec: Codec, c: Cloud, input: EngineInput, agents: seq<string>, prior: State, agent: string)
    requires Calm(c) && SaneCloud(c) && agents != [] && !Works(codec, input, prior)
    ensures var r := EnginesApplied(codec, c, input, agents, prior);
            && r.err.Some? && c.log <= r.cloud.log && r.cloud.engines == c.engines && r.cloud.created == c.created
            && !CreatesFor(r.cloud.log, |c.log|, |r.cloud.log|, agent)
            && r.state.engines == (if Stageable(input, prior) then prior.engines - {agents[0]} else prior.engines)
  {
    var (d, staged) := Staged(c, input, prior);
    StagingIsQuiet(c, input, prior);
    CalmStaging(c, input, prior);
    assert d.created == c.created by {
      hide GcsUri.SplitGcsUri;
    }
    hide Buildable, CreatesFor, Calm, SaneCloud, Stageable, Staged;
    if staged.Ok? {
      ReadyHasUri(c, input, prior);
    }
  }

  // What the plan says about one agent against what apply then does.
  ghost predicate RightAboutCreate(planned: Plan.PlanInput, seen: Cloud, r: Applied, agent: string) {
    seen.log <= r.cloud.log
    && (Plan.EngineAction(planned, agent) == Plan.CreateAction
        <==> CreatesFor(r.cloud.log, |seen.log|, |r.cloud.log|, agent))
  }

  ghost predicate RightAboutRecord(planned: Plan.PlanInput, prior: State, r: Applied, agent: string) {
    Plan.Change(Plan.AgentRuntime, agent, Plan.DeleteAction) in Plan.Planned(planned)
    || (agent in planned.drift && agent !in planned.agents)
    <==> agent in prior.engines && agent !in r.state.engines
  }

  // With no faults and an unchanged control plane, for every request a plan accepts or
  // not: when the apply works, the plan is right about the creates exactly unless the
  // agent's record is overlooked, and always about the records that go. When it does
  // not, apply creates nothing, so the plan is right about an agent exactly when it
  // does not say create; and the only record that goes is the first agent's, once the
  // pack was staged.
  lemma PlanPredictsApply(codec: Codec, c: Cloud, input: EngineInput, agents: seq<string>, prior: State, agent: string)
    requires Calm(c) && SaneCloud(c) && NamesIssued(c, prior.engines) && Ascending(agents) && agents != []
    ensures var seen := Plan.StateReconciled(c, prior).cloud;
            var planned := PlanFor(c, input, agents, prior);
            var r := EnginesApplied(codec, seen, input, agents, prior);
            && (r.err.None? <==> Works(codec, input, prior))
            && (agent in agents
                ==> (RightAboutCreate(planned, seen, r, agent)
                     <==> if Works(codec, input, prior) then !Overlooked(c, prior.engines, agent)
                          else Plan.EngineAction(planned, agent) != Plan.CreateAction))
            && (RightAboutRecord(planned, prior, r, agent)
                <==> || Works(codec, input, prior)
                     || agent !in prior.engines
                     || (agent in agents && !(Stageable(input, prior) && agent == agents[0])))
  {
    CalmReconcile(c, prior);
    var seen := Plan.StateReconciled(c, prior).cloud;
    var planned := PlanFor(c, input, agents, prior);
    Plan.PlanPartitions(planned, agent);
    PlanCreates(c, input, agents, prior, agent);
    if Works(codec, input, prior) {
      PredictsWhenWorking(codec, seen, input, agents, prior, agent);
    } else {
      BrokenApply(codec, seen, input, agents, prior, agent);
    }
    hide Buildable, EnginesApplied, Plan.StateReconciled, Plan.Planned, Staged, WithUri, Plan.EngineAction,
         SaneCloud, Calm, Stageable, CreatesFor, Works;
    PlanRemovals(c, input, agents, prior, agent);
  }

  lemma PredictsWhenWorking(
    codec: Codec, c: Cloud, input: EngineInput, agents: seq<string>, prior: State, agent: string
  )
    requires Calm(c) && SaneCloud(c) && NamesIssued(c, prior.engines) && Ascending(agents) && Works(codec, input, prior)
    ensures var r := EnginesApplied(codec, c, input, agents, prior);
            && r.err.None? && c.log <= r.cloud.log
            && (CreatesFor(r.cloud.log, |c.log|, |r.cloud.log|, agent)
                <==> agent in agents && NeedsCreate(c, prior.engines, agent))
            && r.state.engines.Keys == Names(agents)
  {
    CalmStaging(c, input, prior);
    ReadyHasUri(c, input, prior);
    hide Buildable, EnginesApplied, Staged, WithUri, ReadyInput, SaneCloud, Calm, CreatesFor, Stageable;
    CalmApplyCalls(codec, c, input, agents, prior, agent);
  }

  // Planned deletes and unwanted drift are the recorded names no agent wants.
  lemma PlanRemovals(c: Cloud, input: EngineInput, agents: seq<string>, prior: State, agent: string)
    requires Calm(c) && SaneCloud(c) && Ascending(agents)
    ensures var planned := PlanFor(c, input, agents, prior);
            Plan.Change(Plan.AgentRuntime, agent, Plan.DeleteAction) in Plan.Planned(planned)
            || (agent in planned.drift && agent !in planned.agents)
            <==> agent in prior.engines && agent !in agents
  {
    CalmReconcile(c, prior);
    var planned := PlanFor(c, input, agents, prior);
    hide Plan.StateReconciled, Plan.Planned, SaneCloud, Calm;
    Plan.PlanPartitions(planned, agent);
  }

  // ---- Inputs on which they part ----

  // One reserved operator variable is enough: with an inline pack and nothing
  // deployed the plan promises every agent a create, and apply fails without a call.
  lemma ReservedVariableIsPlanned(
    codec: Codec, c: Cloud, input: EngineInput, agents: seq<string>, prior: State, agent: string
  )
    requires Calm(c) && SaneCloud(c) && Ascending(agents) && agent in agents
    requires input.delivery.inlined && prior.engines == map[] && OtherPromptpack("X") in input.cfg.env
    ensures var seen := Plan.StateReconciled(c, prior).cloud;
            var r := EnginesApplied(codec, seen, input, agents, prior);
            && ValidPackDelivery(input.delivery, input.cfg)
            && Plan.EngineAction(PlanFor(c, input, agents, prior), agent) == Plan.CreateAction
            && !Overlooked(c, prior.engines, agent)
            && r.cloud == seen && r.err == Some(AgentFailed(agents[0]))
  {
    CalmReconcile(c, prior);
    assert ReservedName(OtherPromptpack("X"));
    assert !EnvBuildable(WithUri(input));
  }

  // On a live deployment such a request orphans the first agent's engine without any
  // call at all.
  lemma UnbuildableOrphans(codec: Codec, c: Cloud, input: EngineInput, agents: seq<string>, prior: State)
    requires Consistent(c, prior.engines) && agents != []
    requires input.delivery.inlined && !Buildable(codec, WithUri(input))
    requires agents[0] in prior.engines && prior.engines[agents[0]].name in c.engines
    ensures var r := EnginesApplied(codec, c, input, agents, prior);
            && r.cloud == c && r.state.engines == prior.engines - {agents[0]}
            && prior.engines[agents[0]].name in Orphans(r.cloud, r.state.engines)
  {
    hide Buildable, SaneCloud;
    var left := prior.engines - {agents[0]};
    assert forall a :: a in left ==> a in prior.engines && a != agents[0];
  }
}
