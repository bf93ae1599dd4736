/** Once faults and outside interference stop: when an apply succeeds, what it then
    leaves running, and that repeating it changes nothing. */
module Convergence {
  import opened Texts
  import opened AdapterState
  import opened Inputs
  import opened EngineSpecs
  import opened ControlPlane
  import opened Apply
  import opened ApplyFacts
  import opened ApplyTheorems
  import GcsUri

  // The pack can be put where the engines will read it.
  ghost predicate Stageable(input: EngineInput, prior: State) {
    input.delivery.inlined
    || (input.cfg.stagingBucket != ""
        && var uri := GcsUri.StagedPackUri(input.cfg.stagingBucket, input.packHash);
           prior.stagedPackUri == uri || GcsUri.SplitGcsUri(uri).Ok?)
  }

  lemma CalmLater(c: Cloud, d: Cloud, mine: set<ResourceName>)
    requires Calm(c) && Evolves(c, d, mine)
    ensures Calm(d) && d.lost == c.lost
  {}

  lemma CalmStaging(c: Cloud, input: EngineInput, prior: State)
    requires Calm(c)
    ensures Staged(c, input, prior).1.Ok? <==> Stageable(input, prior)
  {}

  lemma CalmPut(c: Cloud, spec: EngineSpec, agent: string, prior: Engines)
    requires Calm(c)
    ensures PutEngine(c, spec, agent, prior).1.Some?
    ensures Calm(PutEngine(c, spec, agent, prior).0)
  {}

  // With no fault the loop stops only for a spec that cannot be built, at the first agent.
  lemma {:induction false} CalmAgents(
    buildable: bool, specs: Specs, c: Cloud, agents: seq<string>, prior: Engines, next: State
  )
    requires Calm(c)
    ensures AgentsApplied(buildable, specs, c, agents, prior, next).err.None? <==> agents == [] || buildable
    decreases |agents|
  {
    if agents != [] && buildable {
      CalmPut(c, specs(agents[0]), agents[0], prior);
      var (d, made) := OneApplied(buildable, specs, c, agents[0], prior);
      CalmAgents(buildable, specs, d, agents[1..], prior,
                 next.(engines := next.engines[agents[0] := EngineState(made.value, false)]));
    }
  }

  lemma {:induction false} CalmNames(c: Cloud, names: seq<string>, next: State)
    requires Calm(c)
    requires forall n :: n in names ==> n in next.engines
    requires forall i, j | 0 <= i < j < |names| :: names[i] != names[j]
    ensures NamesDeleted(c, names, next).err.None?
    decreases |names|
  {
    if names != [] {
      assert OutcomeOf(c).Fine?;
      var (d, r) := Deleting(c, next.engines[names[0]].name);
      assert forall n :: n in names[1..] ==> n in names && n != names[0];
      CalmNames(d, names[1..], next.(engines := next.engines - {names[0]}));
    }
  }

  // Every agent recorded, every recorded engine live and running exactly its spec.
  ghost predicate Converged(codec: Codec, c: Cloud, input: EngineInput, agents: seq<string>, s: State) {
    && s.engines.Keys == Names(agents)
    && forall a :: a in agents ==> Serves(c, s.engines[a].name, SpecsOf(codec, input)(a))
  }

  lemma StopIsFinished(stop: Stop, codec: Codec, c: Cloud, input: EngineInput, agents: seq<string>, prior: State,
      r: Applied)
    requires StoppedAt(stop, codec, c, input, agents, prior, r)
    ensures r.err.None? <==> stop.Finished?
  {}

  lemma FinishedCalmly(codec: Codec, c: Cloud, input: EngineInput, agents: seq<string>, prior: State, r: Applied)
    requires StoppedAt(Finished, codec, c, input, agents, prior, r) && r.cloud.lost == c.lost
    ensures Converged(codec, r.cloud, ReadyInput(c, input, prior), agents, r.state)
  {
    hide SpecsOf;
    forall a | a in agents
      ensures Serves(r.cloud, r.state.engines[a].name, SpecsOf(codec, ReadyInput(c, input, prior))(a))
    {
      assert a in Names(agents);
    }
  }

  // A fault-free apply from any consistent deployment succeeds exactly when its pack
  // can be staged and its spec built, and then the deployment has converged.
  lemma ApplyConverges(codec: Codec, c: Cloud, input: EngineInput, agents: seq<string>, prior: State)
    requires Consistent(c, prior.engines) && Ascending(agents) && agents != [] && Calm(c)
    ensures var r := EnginesApplied(codec, c, input, agents, prior);
            && (r.err.None? <==> Stageable(input, prior) && Buildable(codec, ReadyInput(c, input, prior)))
            && (r.err.None? ==> Converged(codec, r.cloud, ReadyInput(c, input, prior), agents, r.state))
            && Calm(r.cloud) && r.cloud.lost == c.lost
  {
    var stop, slip := ApplyStops(codec, c, input, agents, prior);
    var r := EnginesApplied(codec, c, input, agents, prior);
    hide SpecsOf, Buildable;
    CalmLater(c, r.cloud, Recorded(prior.engines));
    CalmStaging(c, input, prior);
    StopIsFinished(stop, codec, c, input, agents, prior, r);
    if Staged(c, input, prior).1.Ok? {
      var ready := ReadyInput(c, input, prior);
      var d := Staged(c, input, prior).0;
      StagedFacts(c, input, prior);
      CalmLater(c, d, {});
      CalmAgents(Buildable(codec, ready), SpecsOf(codec, ready), d, agents, prior.engines, StartState(ready, prior));
      CalmFinish(codec, c, input, agents, prior);
    }
    if r.err.None? {
      FinishedCalmly(codec, c, input, agents, prior, r);
    }
  }

  lemma CalmFinish(codec: Codec, c: Cloud, input: EngineInput, agents: seq<string>, prior: State)
    requires Consistent(c, prior.engines) && Ascending(agents) && Calm(c) && Staged(c, input, prior).1.Ok?
    ensures var ready := ReadyInput(c, input, prior);
            var mid := AgentsApplied(Buildable(codec, ready), SpecsOf(codec, ready), Staged(c, input, prior).0, agents,
                                     prior.engines, StartState(ready, prior));
            EnginesApplied(codec, c, input, agents, prior).err.None? <==> mid.err.None?
  {
    var ready := ReadyInput(c, input, prior);
    var d := Staged(c, input, prior).0;
    StagedFacts(c, input, prior);
    CalmLater(c, d, {});
    var mid, r, reached, k, slip :=
      LoopsStop(Buildable(codec, ready), SpecsOf(codec, ready), c, d, agents, prior, StartState(ready, prior));
    assert Evolves(d, mid.cloud, Recorded(prior.engines));
    hide SpecsOf, Buildable, Evolves, SaneCloud, AgentsOutcome, NamesOutcome, Keeps;
    CalmLater(d, mid.cloud, Recorded(prior.engines));
    CalmRemoved(mid.cloud, mid.state, Names(agents));
    hide Calm, RemovedDeleted, AgentsApplied;
  }

  lemma CalmRemoved(c: Cloud, s: State, desired: set<string>)
    requires Calm(c)
    ensures RemovedDeleted(c, s, desired).err.None?
  {
    var removed := SortedNames(s.engines.Keys - desired);
    SortedNamesDistinct(removed);
    CalmNames(c, removed, s);
  }

  // ---- The second apply ----

  // The calls of an apply that finds every engine where it left it.
  function UpdateCalls(specs: Specs, agents: seq<string>, engines: Engines): seq<Call>
    requires forall a :: a in agents ==> a in engines
  {
    if agents == [] then []
    else [Update(engines[agents[0]].name, specs(agents[0]))] + UpdateCalls(specs, agents[1..], engines)
  }

  lemma QuietUpdate(c: Cloud, name: ResourceName, spec: EngineSpec)
    requires Calm(c) && Serves(c, name, spec)
    ensures Updating(c, name, spec) == (c.(log := c.log + [Update(name, spec)]), Ok(name))
  {
    assert OutcomeOf(c).Fine?;
    assert c.engines - {} == c.engines && c.engines[name := spec] == c.engines;
    assert c.lost + ({} * c.engines.Keys) == c.lost;
  }

  lemma {:induction false} QuietAgents(specs: Specs, c: Cloud, agents: seq<string>, s: State)
    requires Calm(c) && SaneCloud(c)
    requires forall a :: a in agents
                         ==> a in s.engines && !s.engines[a].inFlight && Serves(c, s.engines[a].name, specs(a))
    ensures AgentsApplied(true, specs, c, agents, s.engines, s)
            == Applied(c.(log := c.log + UpdateCalls(specs, agents, s.engines)), s, None)
    decreases |agents|
  {
    if agents == [] {
      assert c.log + [] == c.log;
    } else {
      var agent := agents[0];
      assert agent in agents;
      QuietUpdate(c, s.engines[agent].name, specs(agent));
      var d := c.(log := c.log + [Update(s.engines[agent].name, specs(agent))]);
      assert s.engines[agent := EngineState(s.engines[agent].name, false)] == s.engines;
      assert OneApplied(true, specs, c, agent, s.engines) == (d, Some(s.engines[agent].name));
      assert s.(engines := s.engines) == s;
      QuietAgents(specs, d, agents[1..], s);
      assert d.log + UpdateCalls(specs, agents[1..], s.engines) == c.log + UpdateCalls(specs, agents, s.engines);
    }
  }

  lemma NothingRetired(c: Cloud, s: State, desired: set<string>)
    requires s.engines.Keys == desired
    ensures RemovedDeleted(c, s, desired) == Applied(c, s, None)
  {
    assert s.engines.Keys - desired == {};
    ListingUnique(SortedNames({}), [], {});
  }

  // The state a converged apply stored makes the next one start from the same header.
  lemma SameStart(codec: Codec, c: Cloud, input: EngineInput, agents: seq<string>, prior: State)
    requires StoppedAt(Finished, codec, c, input, agents, prior, EnginesApplied(codec, c, input, agents, prior))
    ensures var first := EnginesApplied(codec, c, input, agents, prior);
            var ready := ReadyInput(c, input, prior);
            && Staged(first.cloud, input, first.state) == (first.cloud, Ok(ready.stagedPackUri))
            && StartState(ready, first.state) == first.state
  {}

  lemma QuietFrom(codec: Codec, e: Cloud, input: EngineInput, agents: seq<string>, s: State)
    requires Consistent(e, s.engines) && Calm(e)
    requires Staged(e, input, s).1.Ok? && Staged(e, input, s).0 == e
    requires var ready := ReadyInput(e, input, s);
             && Buildable(codec, ready) && StartState(ready, s) == s && Converged(codec, e, ready, agents, s)
    ensures var specs := SpecsOf(codec, ReadyInput(e, input, s));
            && (forall a :: a in agents ==> a in s.engines)
            && EnginesApplied(codec, e, input, agents, s)
               == Applied(e.(log := e.log + UpdateCalls(specs, agents, s.engines)), s, None)
  {
    var ready := ReadyInput(e, input, s);
    var specs := SpecsOf(codec, ready);
    hide SpecsOf, Buildable, Evolves;
    assert forall a :: a in agents ==> a in Names(agents);
    QuietAgents(specs, e, agents, s);
    NothingRetired(AgentsApplied(true, specs, e, agents, s.engines, s).cloud, s, Names(agents));
  }

  // An identical apply on a converged deployment updates each engine in place, in
  // order, and does nothing else: no create, no delete, no upload, the same state.
  lemma SecondApplyIsQuiet(codec: Codec, c: Cloud, input: EngineInput, agents: seq<string>, prior: State)
    requires Consistent(c, prior.engines) && Ascending(agents) && agents != [] && Calm(c)
    ensures var first := EnginesApplied(codec, c, input, agents, prior);
            var second := EnginesApplied(codec, first.cloud, input, agents, first.state);
            first.err.None? ==> QuietAfter(codec, WithUri(input), agents, first, second)
  {
    var first := EnginesApplied(codec, c, input, agents, prior);
    ApplyConverges(codec, c, input, agents, prior);
    var stop, slip := ApplyStops(codec, c, input, agents, prior);
    hide SpecsOf, Buildable, EnginesApplied, Evolves, SaneCloud, StoppedAt, Converged;
    StopIsFinished(stop, codec, c, input, agents, prior, first);
    if first.err.None? {
      SameStart(codec, c, input, agents, prior);
      assert ReadyInput(first.cloud, input, first.state) == ReadyInput(c, input, prior);
      ReadyHasUri(c, input, prior);
      QuietFrom(codec, first.cloud, input, agents, first.state);
    }
  }

  // The second apply is the first one's updates over again, and nothing else.
  ghost predicate QuietAfter(codec: Codec, ready: EngineInput, agents: seq<string>, first: Applied, second: Applied) {
    && (forall a :: a in agents ==> a in first.state.engines)
    && var calls := UpdateCalls(SpecsOf(codec, ready), agents, first.state.engines);
       second == Applied(first.cloud.(log := first.cloud.log + calls), first.state, None)
  }
}
