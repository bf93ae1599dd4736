/** A dry-run apply or destroy (internal/vertex/client_dryrun.go): the same loops against
    an in-memory control plane that starts empty and never fails.

    The names it makes up belong to no engine, now or later. They are modelled as names
    the real control plane skips. */
module DryRun {
  import opened Texts
  import opened AdapterState
  import opened Inputs
  import opened EngineSpecs
  import opened ControlPlane
  import opened Apply
  import opened ApplyFacts
  import opened ApplyTheorems
  import opened Convergence
  import Destroy
  import GcsUri

  // Staging records the URI and moves no bytes.
  function DryStaged(input: EngineInput): Result<string, ApplyError> {
    if input.delivery.inlined then Ok("")
    else if input.cfg.stagingBucket == "" then Err(NoStagingBucket)
    else Ok(GcsUri.StagedPackUri(input.cfg.stagingBucket, input.packHash))
  }

  ghost function ScratchApplied(
    codec: Codec, c: Cloud, ready: EngineInput, agents: seq<string>, prior: State
  ): Applied {
    var mid := AgentsApplied(Buildable(codec, ready), SpecsOf(codec, ready), Scratch(c.next), agents, prior.engines,
                             StartState(ready, prior));
    if mid.err.Some? then mid else RemovedDeleted(mid.cloud, mid.state, set a | a in agents)
  }

  ghost function DryApplied(codec: Codec, c: Cloud, input: EngineInput, agents: seq<string>, prior: State): Applied {
    var staged := DryStaged(input);
    if staged.Err? then Applied(c, prior, Some(staged.error))
    else
      var r := ScratchApplied(codec, c, input.(stagedPackUri := staged.value), agents, prior);
      Applied(if c.next <= r.cloud.next then SetAside(c, r.cloud.next) else c, r.state, r.err)
  }

  method ApplyDryRun(codec: Codec, client: Client, input: EngineInput, agents: seq<string>, prior: State)
    returns (next: State, err: Option<ApplyError>)
    modifies client
    ensures Applied(client.View(), next, err) == DryApplied(codec, old(client.View()), input, agents, prior)
  {
    var staged := DryStaged(input);
    if staged.Err? {
      return prior, Some(staged.error);
    }
    var ready := input.(stagedPackUri := staged.value);
    var scratch := new Client.DryRun(client.next);
    next := FirstState(ready, prior);
    next, err := DeployAgents(codec, scratch, ready, agents, prior, next);
    if err.None? {
      next, err := DeleteRemoved(scratch, next, set a | a in agents);
    }
    if client.next <= scratch.next {
      client.SetAsideUpTo(scratch.next);
    }
  }

  ghost function DryDestroyed(c: Cloud, prior: State, fails: Destroy.Callback): Destroy.Destroyed {
    Destroy.StateDestroyed(Scratch(c.next), prior, fails).(cloud := c)
  }

  method DestroyDryRun(client: Client, prior: State, fails: Destroy.Callback)
    returns (err: Option<string>, sent: nat, hungUp: bool)
    ensures Destroy.Destroyed(client.View(), sent, err, hungUp) == DryDestroyed(client.View(), prior, fails)
  {
    var scratch := new Client.DryRun(client.next);
    err, sent, hungUp := Destroy.DestroyAll(scratch, prior, fails);
  }

  // ---- What a dry run leaves behind ----

  // Every recorded name is one of the real control plane's past.
  ghost predicate Past(first: ResourceName, engines: Engines) {
    forall a :: a in engines ==> engines[a].name < first
  }

  // The i-th agent is recorded under the i-th name made up.
  ghost predicate MadeUp(engines: Engines, agents: seq<string>, first: ResourceName) {
    forall i :: 0 <= i < |agents| ==> agents[i] in engines && engines[agents[i]] == EngineState(first + i, false)
  }

  ghost predicate Untouched(before: Engines, after: Engines, agents: seq<string>) {
    && after.Keys == before.Keys + Names(agents)
    && forall a :: a in before && a !in agents ==> after[a] == before[a]
  }

  lemma ScratchPut(c: Cloud, spec: EngineSpec, agent: string, prior: Engines, first: ResourceName)
    requires Calm(c) && first <= c.next && Past(first, prior) && forall n :: n in c.engines ==> n >= first
    ensures var (d, made) := PutEngine(c, spec, agent, prior);
            && made == Some(c.next) && d.next == c.next + 1 && Calm(d) && forall n :: n in d.engines ==> n >= first
  {
    assert OutcomeOf(c).Fine?;
    CalmPut(c, spec, agent, prior);
  }

  lemma {:induction false} ScratchAgents(
    specs: Specs, c: Cloud, agents: seq<string>, prior: Engines, next: State, first: ResourceName
  )
    requires Calm(c) && first <= c.next && Past(first, prior) && forall n :: n in c.engines ==> n >= first
    requires forall i, j | 0 <= i < j < |agents| :: agents[i] != agents[j]
    ensures var r := AgentsApplied(true, specs, c, agents, prior, next);
            && r.err == None && r.cloud.next == c.next + |agents| && Calm(r.cloud)
            && r.state == next.(engines := r.state.engines)
            && MadeUp(r.state.engines, agents, c.next) && Untouched(next.engines, r.state.engines, agents)
    decreases |agents|
  {
    if agents != [] {
      ScratchPut(c, specs(agents[0]), agents[0], prior, first);
      var d := PutEngine(c, specs(agents[0]), agents[0], prior).0;
      var next' := next.(engines := next.engines[agents[0] := EngineState(c.next, false)]);
      hide PutEngine, Calm;
      ScratchAgents(specs, d, agents[1..], prior, next', first);
      var r := AgentsApplied(true, specs, d, agents[1..], prior, next');
      assert AgentsApplied(true, specs, c, agents, prior, next) == r;
      hide AgentsApplied;
      ScratchCons(next.engines, r.state.engines, agents, c.next);
    }
  }

  lemma ScratchCons(before: Engines, after: Engines, agents: seq<string>, first: ResourceName)
    requires agents != [] && forall i, j | 0 <= i < j < |agents| :: agents[i] != agents[j]
    requires MadeUp(after, agents[1..], first + 1)
    requires Untouched(before[agents[0] := EngineState(first, false)], after, agents[1..])
    ensures MadeUp(after, agents, first) && Untouched(before, after, agents)
  {
    assert agents[0] !in agents[1..];
    forall i | 0 <= i < |agents|
      ensures agents[i] in after && after[agents[i]] == EngineState(first + i, false)
    {
      if i > 0 {
        assert agents[i] == agents[1..][i - 1];
      }
    }
    assert Names(agents) == {agents[0]} + Names(agents[1..]);
  }

  lemma {:induction false} ScratchDeletes(c: Cloud, names: seq<string>, next: State)
    requires Calm(c)
    requires forall n :: n in names ==> n in next.engines
    requires forall i, j | 0 <= i < j < |names| :: names[i] != names[j]
    ensures var r := NamesDeleted(c, names, next);
            && r.err == None && r.cloud.next == c.next && r.state == next.(engines := next.engines - Names(names))
    decreases |names|
  {
    if names == [] {
      assert next.engines - Names(names) == next.engines;
    } else {
      assert OutcomeOf(c).Fine?;
      var (d, r) := Deleting(c, next.engines[names[0]].name);
      assert forall n :: n in names[1..] ==> n in names && n != names[0];
      ScratchDeletes(d, names[1..], next.(engines := next.engines - {names[0]}));
      assert Names(names) == {names[0]} + Names(names[1..]);
      assert next.engines - {names[0]} - Names(names[1..]) == next.engines - Names(names);
    }
  }

  // The document a dry run returns: the prior one when its pack has no route, the prior
  // one without the first agent when its spec cannot be built, and otherwise exactly
  // the pack's agents, each under a name no engine ever has.
  ghost predicate DryOutcome(codec: Codec, c: Cloud, input: EngineInput, agents: seq<string>, prior: State, r: Applied)
    requires agents != []
  {
    if DryStaged(input).Err? then r == Applied(c, prior, Some(NoStagingBucket))
    else if !Buildable(codec, WithUri(input)) then
      && r.cloud == SetAside(c, c.next) && r.err == Some(AgentFailed(agents[0]))
      && r.state == StartState(WithUri(input), prior).(engines := prior.engines - {agents[0]})
    else
      && r.cloud == SetAside(c, c.next + |agents|) && r.err == None
      && r.state == StartState(WithUri(input), prior).(engines := r.state.engines)
      && r.state.engines.Keys == Names(agents) && MadeUp(r.state.engines, agents, c.next)
  }

  lemma ScratchLoops(specs: Specs, first: ResourceName, agents: seq<string>, prior: Engines, start: State)
    requires Ascending(agents) && Past(first, prior)
    ensures var mid := AgentsApplied(true, specs, Scratch(first), agents, prior, start);
            var r := RemovedDeleted(mid.cloud, mid.state, Names(agents));
            && mid.err == None && r.cloud.next == first + |agents| && r.err == None
            && r.state == start.(engines := r.state.engines)
            && r.state.engines.Keys == Names(agents) && MadeUp(r.state.engines, agents, first)
  {
    SortedNamesDistinct(agents);
    ScratchAgents(specs, Scratch(first), agents, prior, start, first);
    var mid := AgentsApplied(true, specs, Scratch(first), agents, prior, start);
    hide AgentsApplied, Scratch, Calm, Past;
    var removed := SortedNames(mid.state.engines.Keys - Names(agents));
    SortedNamesDistinct(removed);
    ScratchDeletes(mid.cloud, removed, mid.state);
    hide NamesDeleted;
    assert Names(removed) == mid.state.engines.Keys - Names(agents);
    KeptMadeUp(mid.state.engines, agents, first);
  }

  lemma KeptMadeUp(engines: Engines, agents: seq<string>, first: ResourceName)
    requires MadeUp(engines, agents, first)
    ensures var kept := engines - (engines.Keys - Names(agents));
            kept.Keys == Names(agents) && MadeUp(kept, agents, first)
  {
    forall a | a in agents
      ensures a in engines
    {
      var i :| 0 <= i < |agents| && agents[i] == a;
    }
  }

  lemma ScratchOutcome(codec: Codec, c: Cloud, ready: EngineInput, agents: seq<string>, prior: State)
    requires Buildable(codec, ready) && Ascending(agents) && Past(c.next, prior.engines)
    ensures var r := ScratchApplied(codec, c, ready, agents, prior);
            && r.cloud.next == c.next + |agents| && r.err == None
            && r.state == StartState(ready, prior).(engines := r.state.engines)
            && r.state.engines.Keys == Names(agents) && MadeUp(r.state.engines, agents, c.next)
  {
    ScratchLoops(SpecsOf(codec, ready), c.next, agents, prior.engines, StartState(ready, prior));
    hide AgentsApplied, SpecsOf, Buildable, StartState, RemovedDeleted, MadeUp, Past, Scratch;
  }

  lemma ScratchStops(codec: Codec, c: Cloud, ready: EngineInput, agents: seq<string>, prior: State)
    requires !Buildable(codec, ready) && agents != []
    ensures ScratchApplied(codec, c, ready, agents, prior)
            == Applied(Scratch(c.next), StartState(ready, prior).(engines := prior.engines - {agents[0]}),
                       Some(AgentFailed(agents[0])))
  {
    hide SpecsOf, Buildable;
  }

  lemma DryReady(input: EngineInput)
    ensures DryStaged(input).Ok? ==> input.(stagedPackUri := DryStaged(input).value) == WithUri(input)
    ensures DryStaged(input).Err? ==> DryStaged(input).error == NoStagingBucket
  {}

  lemma DryRunOutcome(codec: Codec, c: Cloud, input: EngineInput, agents: seq<string>, prior: State)
    requires agents != [] && Ascending(agents) && Past(c.next, prior.engines)
    ensures DryOutcome(codec, c, input, agents, prior, DryApplied(codec, c, input, agents, prior))
  {
    DryReady(input);
    hide DryStaged, WithUri, Buildable, StartState, MadeUp, Past, ScratchApplied;
    if DryStaged(input).Ok? {
      if Buildable(codec, WithUri(input)) {
        ScratchOutcome(codec, c, WithUri(input), agents, prior);
      } else {
        ScratchStops(codec, c, WithUri(input), agents, prior);
      }
    }
  }

  // What goes with the prior document: every live engine it recorded when the dry run
  // succeeds, the first agent's when its spec cannot be built.
  ghost function Dropped(c: Cloud, prior: Engines, agents: seq<string>, r: Applied): set<ResourceName>
    requires agents != []
  {
    if r.err.None? then Recorded(prior) * c.engines.Keys
    else if r.err == Some(AgentFailed(agents[0])) then OldName(prior, agents[0]) * c.engines.Keys
    else {}
  }

  ghost predicate LetsGo(c: Cloud, prior: Engines, agents: seq<string>, r: Applied)
    requires agents != []
  {
    && Consistent(r.cloud, r.state.engines)
    && r.cloud.engines == c.engines && r.cloud.objects == c.objects && r.cloud.log == c.log
    && Orphans(r.cloud, r.state.engines) == Orphans(c, prior) + Dropped(c, prior, agents, r)
  }

  lemma AllDropped(c: Cloud, prior: Engines, agents: seq<string>, r: Applied)
    requires Consistent(c, prior) && agents != [] && Ascending(agents)
    requires r.err.None? && r.cloud == SetAside(c, c.next + |agents|)
    requires r.state.engines.Keys == Names(agents) && MadeUp(r.state.engines, agents, c.next)
    ensures LetsGo(c, prior, agents, r)
  {
    SortedNamesDistinct(agents);
    hide Consistent, Orphans, MadeUp;
    MadeUpConsistent(c, r.cloud, prior, r.state.engines, agents);
  }

  lemma FirstDropped(c: Cloud, prior: Engines, agents: seq<string>, r: Applied)
    requires Consistent(c, prior) && agents != []
    requires r.err == Some(AgentFailed(agents[0])) && r.cloud == SetAside(c, c.next)
    requires r.state.engines == prior - {agents[0]}
    ensures LetsGo(c, prior, agents, r)
  {
    hide Consistent, Orphans;
    StruckFirst(c, prior, agents[0]);
  }

  lemma NothingDropped(c: Cloud, prior: Engines, agents: seq<string>, r: Applied)
    requires Consistent(c, prior) && agents != []
    requires r.err == Some(NoStagingBucket) && r.cloud == c && r.state.engines == prior
    ensures LetsGo(c, prior, agents, r)
  {
    assert Orphans(c, prior) + {} == Orphans(c, prior);
  }

  lemma OutcomeLetsGo(codec: Codec, c: Cloud, input: EngineInput, agents: seq<string>, prior: State, r: Applied)
    requires agents != [] && Ascending(agents) && Consistent(c, prior.engines)
    requires DryOutcome(codec, c, input, agents, prior, r)
    ensures LetsGo(c, prior.engines, agents, r)
  {
    hide DryStaged, Buildable, WithUri, StartState, LetsGo, Consistent, SetAside;
    if DryStaged(input).Err? {
      NothingDropped(c, prior.engines, agents, r);
    } else if r.err.None? {
      AllDropped(c, prior.engines, agents, r);
    } else {
      FirstDropped(c, prior.engines, agents, r);
    }
  }

  // A dry run touches nothing, and orphans exactly the live engines it drops.
  lemma DryRunLetsGo(codec: Codec, c: Cloud, input: EngineInput, agents: seq<string>, prior: State)
    requires agents != [] && Ascending(agents) && Consistent(c, prior.engines)
    ensures LetsGo(c, prior.engines, agents, DryApplied(codec, c, input, agents, prior))
  {
    assert Past(c.next, prior.engines);
    hide DryApplied, DryOutcome, LetsGo, SaneCloud;
    DryRunOutcome(codec, c, input, agents, prior);
    OutcomeLetsGo(codec, c, input, agents, prior, DryApplied(codec, c, input, agents, prior));
  }

  lemma MadeUpConsistent(c: Cloud, d: Cloud, prior: Engines, engines: Engines, agents: seq<string>)
    requires Consistent(c, prior) && d == SetAside(c, c.next + |agents|)
    requires forall i, j | 0 <= i < j < |agents| :: agents[i] != agents[j]
    requires engines.Keys == Names(agents) && MadeUp(engines, agents, c.next)
    ensures Consistent(d, engines)
    ensures Orphans(d, engines) == Orphans(c, prior) + (Recorded(prior) * c.engines.Keys)
  {
    forall a | a in engines
      ensures exists i :: 0 <= i < |agents| && agents[i] == a && engines[a] == EngineState(c.next + i, false)
    {
      assert a in Names(agents);
      var i :| 0 <= i < |agents| && agents[i] == a;
    }
  }

  lemma StruckFirst(c: Cloud, engines: Engines, agent: string)
    requires Consistent(c, engines)
    ensures var d, few := SetAside(c, c.next), engines - {agent};
            && Consistent(d, few) && d == c
            && Orphans(d, few) == Orphans(c, engines) + (OldName(engines, agent) * c.engines.Keys)
  {
    var d := SetAside(c, c.next);
    assert d.created == c.created && d.lost == c.lost;
    forall n | n in Recorded(engines)
      ensures n in Recorded(engines - {agent}) <==> n !in OldName(engines, agent)
    {
      var a :| a in engines && engines[a].name == n;
      assert a != agent ==> a in engines - {agent} && (engines - {agent})[a].name == n;
    }
  }

  // A dry-run destroy of a deployment deletes nothing and always reports success.
  lemma DryDestroyLooksClean(c: Cloud, prior: State, fails: Destroy.Callback)
    requires c.next > NO_NAME && prior.engines != map[]
    ensures DryDestroyed(c, prior, fails).err.None? && DryDestroyed(c, prior, fails).cloud == c
  {
    var scratch := Scratch(c.next);
    assert SaneCloud(scratch);
    Destroy.HungUpDestroyLooksClean(scratch, prior, fails);
    assert Destroy.AllFine(scratch.fate, 0, |Destroy.StateDestroyed(scratch, prior, fails).cloud.log|);
    hide Destroy.StateDestroyed;
  }
}
