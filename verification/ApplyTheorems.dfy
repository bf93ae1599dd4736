/** One apply, as a whole: the exact state it returns wherever it stops, the bound on
    what it leaves unrecorded, convergence once faults stop, and a quiet second apply. */
module ApplyTheorems {
  import opened Texts
  import opened AdapterState
  import opened Inputs
  import opened EngineSpecs
  import opened ControlPlane
  import opened Apply
  import opened ApplyFacts
  import GcsUri

  // Where an apply stopped: before any engine, at an agent, at a retired engine, or nowhere.
  datatype Stop = AtStaging | AtAgent(reached: nat) | AtDelete(reached: nat) | Finished

  function ReadyInput(c: Cloud, input: EngineInput, prior: State): EngineInput
    requires Staged(c, input, prior).1.Ok?
  {
    input.(stagedPackUri := Staged(c, input, prior).1.value)
  }

  // The URI an apply of this input ends up with, if it stages at all.
  function ExpectedUri(input: EngineInput): string {
    if input.delivery.inlined then "" else GcsUri.StagedPackUri(input.cfg.stagingBucket, input.packHash)
  }

  function WithUri(input: EngineInput): EngineInput {
    input.(stagedPackUri := ExpectedUri(input))
  }

  lemma ReadyHasUri(c: Cloud, input: EngineInput, prior: State)
    requires Staged(c, input, prior).1.Ok?
    ensures ReadyInput(c, input, prior) == WithUri(input)
  {}

  // An apply past staging is the agent loop and, unless that stopped, the deletes.
  lemma AppliedInParts(codec: Codec, c: Cloud, input: EngineInput, agents: seq<string>, prior: State)
    returns (mid: Applied)
    requires Staged(c, input, prior).1.Ok?
    ensures var ready := WithUri(input);
            mid == AgentsApplied(Buildable(codec, ready), SpecsOf(codec, ready), Staged(c, input, prior).0, agents,
                                 prior.engines, StartState(ready, prior))
    ensures EnginesApplied(codec, c, input, agents, prior)
            == if mid.err.Some? then mid else RemovedDeleted(mid.cloud, mid.state, Names(agents))
  {
    ReadyHasUri(c, input, prior);
    var ready := WithUri(input);
    hide WithUri, Staged, Buildable, SpecsOf, AgentsApplied, StartState, RemovedDeleted;
    mid := AgentsApplied(Buildable(codec, ready), SpecsOf(codec, ready), Staged(c, input, prior).0, agents,
                         prior.engines, StartState(ready, prior));
  }

  ghost function Retired(agents: seq<string>, prior: State): seq<string> {
    SortedNames(prior.engines.Keys - Names(agents))
  }

  // The new hashes and URI are stored however far the apply got.
  ghost predicate Header(input: EngineInput, prior: State, s: State) {
    s == StartState(input, prior).(engines := s.engines)
  }

  ghost predicate StoppedAt(
    stop: Stop, codec: Codec, c: Cloud, input: EngineInput, agents: seq<string>, prior: State, r: Applied
  ) {
    if stop.AtStaging? then
      && Staged(c, input, prior).1.Err? && r.err == Some(Staged(c, input, prior).1.error)
      && r.state == prior
    else
      && Staged(c, input, prior).1.Ok?
      && var ready := ReadyInput(c, input, prior);
      && var specs := SpecsOf(codec, ready);
      && var retired := Retired(agents, prior);
      && Header(ready, prior, r.state)
      && match stop
         case AtAgent(i) =>
           && i < |agents| && r.err == Some(AgentFailed(agents[i]))
           && Rewritten(prior.engines, r.state.engines, agents, i)
           && Deployed(specs, c.lost, r.cloud, r.state.engines, Names(agents[..i]))
         case AtDelete(k) =>
           && k < |retired| && r.err == Some(DeleteFailed(retired[k]))
           && r.state.engines.Keys == prior.engines.Keys + Names(agents) - Names(retired[..k])
           && (forall a :: a in r.state.engines && a !in agents ==> r.state.engines[a] == prior.engines[a])
           && Deployed(specs, c.lost, r.cloud, r.state.engines, Names(agents))
         case Finished =>
           && r.err == None
           && r.state.engines.Keys == Names(agents)
           && Deployed(specs, c.lost, r.cloud, r.state.engines, Names(agents))
  }

  // What a plan accepts, staging never refuses for want of a bucket.
  lemma ValidDeliveryHasBucket(c: Cloud, input: EngineInput, prior: State)
    ensures ValidPackDelivery(input.delivery, input.cfg) <==> Staged(c, input, prior).1 != Err(NoStagingBucket)
  {}

  lemma StagedFacts(c: Cloud, input: EngineInput, prior: State)
    requires Consistent(c, prior.engines)
    ensures var d := Staged(c, input, prior).0;
            && Consistent(d, prior.engines)
            && Evolves(c, d, {})
            && Orphans(d, prior.engines) <= Orphans(c, prior.engines)
  {
    var uri := GcsUri.StagedPackUri(input.cfg.stagingBucket, input.packHash);
    StagingFacts(c, uri, input.packJson);
  }

  lemma AgentsEnter(specs: Specs, c: Cloud, d: Cloud, agents: seq<string>, prior: Engines)
    requires Consistent(d, prior) && Ascending(agents) && c.lost <= d.lost
    ensures Ready(specs, c.lost, d, prior, prior, agents, {}, Recorded(prior))
  {}

  lemma DeletesEnter(
    specs: Specs, lost: set<ResourceName>, c: Cloud, agents: seq<string>, prior: State, mid: Engines,
    retired: seq<string>
  )
    requires Rewritten(prior.engines, mid, agents, |agents|)
    requires Deployed(specs, lost, c, mid, Names(agents))
    requires retired == SortedNames(mid.Keys - Names(agents))
    ensures retired == Retired(agents, prior)
    ensures Deletable(mid, retired, Names(agents), Recorded(prior.engines))
  {
    assert agents[..|agents|] == agents;
    assert mid.Keys - Names(agents) == prior.engines.Keys - Names(agents);
    SortedNamesDistinct(retired);
  }

  lemma StopAtAgent(
    codec: Codec, c: Cloud, input: EngineInput, agents: seq<string>, prior: State, mid: Applied, reached: nat,
    slip: ResourceName
  )
    requires Staged(c, input, prior).1.Ok? && reached < |agents|
    requires var ready := ReadyInput(c, input, prior);
             AgentsOutcome(SpecsOf(codec, ready), c.lost, Staged(c, input, prior).0, StartState(ready, prior),
                           agents, {}, Recorded(prior.engines), mid, reached, slip)
    ensures StoppedAt(AtAgent(reached), codec, c, input, agents, prior, mid)
  {
    hide SpecsOf, Evolves, SaneCloud;
    assert {} + Names(agents[..reached]) == Names(agents[..reached]);
  }

  lemma StopAfterAgents(
    codec: Codec, c: Cloud, input: EngineInput, agents: seq<string>, prior: State, mid: Applied, slip: ResourceName,
    r: Applied, k: nat
  )
    requires Staged(c, input, prior).1.Ok?
    requires var ready := ReadyInput(c, input, prior);
             && AgentsOutcome(SpecsOf(codec, ready), c.lost, Staged(c, input, prior).0, StartState(ready, prior),
                 agents, {},
                              Recorded(prior.engines), mid, |agents|, slip)
             && NamesOutcome(SpecsOf(codec, ready), c.lost, mid.cloud, mid.state, Retired(agents, prior), Names(agents),
                             Recorded(prior.engines), r, k)
    ensures StoppedAt(if k < |Retired(agents, prior)| then AtDelete(k) else Finished, codec, c, input, agents, prior, r)
  {
    hide SpecsOf, Evolves, SaneCloud;
    var retired := Retired(agents, prior);
    assert agents[..|agents|] == agents;
    assert k == |retired| ==> retired[..k] == retired;
    forall n | n in retired[..k]
      ensures n in retired && n !in agents
    {}
  }

  // The invariant, the reach and the orphan bound of one apply.
  ghost predicate Keeps(c: Cloud, prior: Engines, r: Applied, extra: set<ResourceName>) {
    && Consistent(r.cloud, r.state.engines)
    && Evolves(c, r.cloud, Recorded(prior))
    && Orphans(r.cloud, r.state.engines) <= Orphans(c, prior) + extra
  }

  lemma LoopsStop(
    buildable: bool, specs: Specs, c: Cloud, d: Cloud, agents: seq<string>, prior: State, start: State
  ) returns (mid: Applied, r: Applied, reached: nat, k: nat, slip: ResourceName)
    requires Consistent(d, prior.engines) && Ascending(agents) && c.lost <= d.lost && start.engines == prior.engines
    ensures mid == AgentsApplied(buildable, specs, d, agents, prior.engines, start)
    ensures AgentsOutcome(specs, c.lost, d, start, agents, {}, Recorded(prior.engines), mid, reached, slip)
    ensures reached == |agents| ==>
              && r == RemovedDeleted(mid.cloud, mid.state, Names(agents))
              && NamesOutcome(specs, c.lost, mid.cloud, mid.state, Retired(agents, prior), Names(agents),
                              Recorded(prior.engines), r, k)
    ensures reached < |agents| ==> r == mid
    ensures Keeps(d, prior.engines, r, if reached < |agents| then {slip} else {})
  {
    var mine := Recorded(prior.engines);
    AgentsEnter(specs, c, d, agents, prior.engines);
    reached, slip := AgentsFacts(buildable, specs, c.lost, d, agents, prior.engines, start, {}, mine);
    mid := AgentsApplied(buildable, specs, d, agents, prior.engines, start);
    r, k := mid, 0;
    hide Evolves, SaneCloud, Rewritten, Struck;
    if reached == |agents| {
      assert {} + Names(agents[..|agents|]) == Names(agents) by {
        assert agents[..|agents|] == agents;
      }
      var retired := SortedNames(mid.state.engines.Keys - Names(agents));
      DeletesEnter(specs, c.lost, mid.cloud, agents, prior, mid.state.engines, retired);
      k := NamesFacts(specs, c.lost, mid.cloud, retired, mid.state, Names(agents), mine);
      r := NamesDeleted(mid.cloud, retired, mid.state);
      EvolvesTransitive(d, mid.cloud, r.cloud, mine);
    }
  }

  lemma KeepsFrom(c: Cloud, d: Cloud, prior: Engines, r: Applied, extra: set<ResourceName>)
    requires Evolves(c, d, {}) && Orphans(d, prior) <= Orphans(c, prior) && Keeps(d, prior, r, extra)
    ensures Keeps(c, prior, r, extra)
  {}

  // Wherever an apply stops, the state it returns is exactly this one; only engines
  // recorded in the prior state were changed or removed; the invariant still holds;
  // and at most one engine is left unrecorded, only when it stopped at an agent.
  lemma ApplyStops(codec: Codec, c: Cloud, input: EngineInput, agents: seq<string>, prior: State)
    returns (stop: Stop, slip: ResourceName)
    requires Consistent(c, prior.engines) && Ascending(agents)
    ensures StoppedAt(stop, codec, c, input, agents, prior, EnginesApplied(codec, c, input, agents, prior))
    ensures Keeps(c, prior.engines, EnginesApplied(codec, c, input, agents, prior),
                  if stop.AtAgent? then {slip} else {})
  {
    var (d, staged) := Staged(c, input, prior);
    StagedFacts(c, input, prior);
    EvolvesWider(c, d, {}, Recorded(prior.engines));
    if staged.Err? {
      return AtStaging, NO_NAME;
    }
    var ready := ReadyInput(c, input, prior);
    var start := StartState(ready, prior);
    var mid, r, reached, k, slipped := LoopsStop(Buildable(codec, ready), SpecsOf(codec, ready), c, d, agents, prior,
        start);
    hide SpecsOf, Buildable, Evolves, SaneCloud, Rewritten, Struck, Header, StoppedAt, RemovedDeleted,
         AgentsOutcome, NamesOutcome;
    slip := slipped;
    KeepsFrom(c, d, prior.engines, r, if reached < |agents| then {slip} else {});
    if reached < |agents| {
      StopAtAgent(codec, c, input, agents, prior, mid, reached, slip);
      return AtAgent(reached), slip;
    }
    StopAfterAgents(codec, c, input, agents, prior, mid, slip, r, k);
    stop := if k < |Retired(agents, prior)| then AtDelete(k) else Finished;
  }

  // However far an apply got past staging, what it stores beside the engines is this.
  lemma StoresHeader(codec: Codec, c: Cloud, input: EngineInput, agents: seq<string>, prior: State)
    requires Consistent(c, prior.engines) && Ascending(agents) && Staged(c, input, prior).1.Ok?
    ensures var s := EnginesApplied(codec, c, input, agents, prior).state;
            && s.version == 1 && s.adapterVersion == "dev" && s.imageDigest == "" && s.stagedPackGeneration == 0
            && s.packHash == input.packHash && s.configHash == input.configHash
            && s.stagedPackUri == ExpectedUri(input) && s.unknown == map[]
  {
    var stop, slip := ApplyStops(codec, c, input, agents, prior);
    ReadyHasUri(c, input, prior);
    hide EnginesApplied, Keeps, SpecsOf, Deployed, Rewritten, Staged, ExpectedUri, Consistent;
  }
}
