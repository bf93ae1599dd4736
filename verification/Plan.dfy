/** Verifying stored state against the control plane and diffing it
    (internal/vertex/reconcile.go, plan.go). */
module Plan {
  import opened Texts
  import opened AdapterState
  import opened Inputs
  import opened ControlPlane
  import GcsUri

  datatype Action = CreateAction | UpdateAction | DeleteAction | NoChange | Drift

  datatype ResourceType = AgentRuntime | PackObject

  datatype Change = Change(resource: ResourceType, name: string, action: Action)

  // ---- Reconciling ----

  predicate Settled(e: EngineState) {
    !e.inFlight && e.name != NO_NAME
  }

  datatype Existence = ExistsYes | ExistsNo | ExistsUnknown

  // Only a confirmed absence counts as absence; any other failure is unknown.
  function ExistenceOf<T>(r: Result<T, ApiError>): Existence {
    if r.Ok? then ExistsYes else if r.error.EngineNotFound? then ExistsNo else ExistsUnknown
  }

  // adaptersdk.ReconcilePriorState, by its contract: references are probed in order
  // and one is dropped exactly when it is confirmed absent.
  datatype Probe = Probe(cloud: Cloud, survivors: seq<string>, gone: seq<string>)

  function ProbeAll(c: Cloud, refs: seq<string>, engines: Engines): Probe
    requires forall n :: n in refs ==> n in engines
    decreases |refs|
  {
    if refs == [] then Probe(c, [], [])
    else
      assert forall n :: n in refs[1..] ==> n in refs;
      var (d, r) := Getting(c, engines[refs[0]].name);
      var rest := ProbeAll(d, refs[1..], engines);
      if ExistenceOf(r).ExistsNo? then rest.(gone := [refs[0]] + rest.gone)
      else rest.(survivors := [refs[0]] + rest.survivors)
  }

  method Exists(client: Client, name: ResourceName) returns (e: Existence)
    modifies client
    ensures client.View() == Getting(old(client.View()), name).0
    ensures e == ExistenceOf(Getting(old(client.View()), name).1)
  {
    var r := client.GetEngine(name);
    e := ExistenceOf(r);
  }

  // What is left to probe completes what has been found so far.
  ghost predicate Probing(
    whole: Probe, c: Cloud, refs: seq<string>, engines: Engines, i: nat, survivors: seq<string>, gone: seq<string>
  ) {
    && i <= |refs|
    && (forall n :: n in refs ==> n in engines)
    && (forall n :: n in refs[i..] ==> n in refs)
    && var rest := ProbeAll(c, refs[i..], engines);
       whole == Probe(rest.cloud, survivors + rest.survivors, gone + rest.gone)
  }

  lemma ProbingNext(
    whole: Probe, c: Cloud, refs: seq<string>, engines: Engines, i: nat, survivors: seq<string>, gone: seq<string>
  )
    requires Probing(whole, c, refs, engines, i, survivors, gone) && i < |refs|
    ensures var (d, r) := Getting(c, engines[refs[i]].name);
            if ExistenceOf(r).ExistsNo? then Probing(whole, d, refs, engines, i + 1, survivors, gone + [refs[i]])
            else Probing(whole, d, refs, engines, i + 1, survivors + [refs[i]], gone)
  {}

  method ProbeRefs(client: Client, refs: seq<string>, engines: Engines) returns (survivors: seq<string>,
      gone: seq<string>)
    requires forall n :: n in refs ==> n in engines
    modifies client
    ensures Probe(client.View(), survivors, gone) == ProbeAll(old(client.View()), refs, engines)
  {
    survivors, gone := [], [];
    ghost var whole := ProbeAll(client.View(), refs, engines);
    assert refs[0..] == refs;
    assert Probing(whole, client.View(), refs, engines, 0, survivors, gone);
    var i := 0;
    while i < |refs|
      invariant 0 <= i <= |refs|
      invariant Probing(whole, client.View(), refs, engines, i, survivors, gone)
    {
      hide Probing;
      ProbingNext(whole, client.View(), refs, engines, i, survivors, gone);
      var e := Exists(client, engines[refs[i]].name);
      if e.ExistsNo? {
        gone := gone + [refs[i]];
      } else {
        survivors := survivors + [refs[i]];
      }
      i := i + 1;
    }
    assert refs[i..] == [];
  }

  datatype Reconciled = Reconciled(cloud: Cloud, state: State, drift: seq<string>)

  // Only settled engines are looked up; whatever is gone leaves the state, and
  // every other field of it survives.
  ghost function StateReconciled(c: Cloud, prior: State): Reconciled {
    var probe := ProbeAll(c, SortedNames(SettledNames(prior.engines)), prior.engines);
    Reconciled(probe.cloud, prior.(engines := prior.engines - (set n | n in probe.gone)), probe.gone)
  }

  function SettledNames(engines: Engines): set<string> {
    set n | n in engines && Settled(engines[n])
  }

  lemma {:induction false} ProbeSplits(c: Cloud, refs: seq<string>, engines: Engines)
    requires forall n :: n in refs ==> n in engines
    ensures var p := ProbeAll(c, refs, engines);
            forall n :: n in refs <==> n in p.survivors || n in p.gone
    decreases |refs|
  {
    if refs != [] {
      assert forall n :: n in refs <==> n == refs[0] || n in refs[1..];
      ProbeSplits(Getting(c, engines[refs[0]].name).0, refs[1..], engines);
    }
  }

  // A probed name is either among the survivors or gone, never both.
  lemma {:induction false} ProbeDisjoint(c: Cloud, refs: seq<string>, engines: Engines)
    requires forall n :: n in refs ==> n in engines
    requires Ascending(refs)
    ensures var p := ProbeAll(c, refs, engines);
            && Ascending(p.gone)
            && forall n :: n in p.gone ==> n !in p.survivors
    decreases |refs|
  {
    if refs != [] {
      var d := Getting(c, engines[refs[0]].name).0;
      assert forall n :: n in refs[1..] ==> n in refs;
      ProbeSplits(d, refs[1..], engines);
      ProbeDisjoint(d, refs[1..], engines);
      LessTotal(refs[0], refs[0]);
      forall n | n in refs[1..]
        ensures Less(refs[0], n)
      {
        var i :| 0 <= i < |refs[1..]| && refs[1..][i] == n;
        assert Less(refs[0], refs[i + 1]);
      }
    }
  }

  lemma AppendAscending(names: seq<string>, i: nat, refs: seq<string>)
    requires Ascending(names) && i < |names| && Ascending(refs)
    requires forall n :: n in refs ==> n in names[..i]
    ensures Ascending(refs + [names[i]])
  {
    forall j | 0 <= j < |refs|
      ensures Less(refs[j], names[i])
    {
      assert refs[j] in refs;
      var k :| 0 <= k < i && names[..i][k] == refs[j];
    }
  }

  // How far the split has come: settled names listed, unsettled records kept.
  ghost predicate SplitUpTo(engines: Engines, names: seq<string>, i: nat, kept: Engines, refs: seq<string>)
    requires i <= |names|
  {
    && Ascending(refs)
    && (forall n :: n in refs ==> n in names[..i])
    && (forall n :: n in names[..i] && n in engines ==> (n in refs <==> Settled(engines[n])))
    && (forall n :: n in kept <==> n in names[..i] && n in engines && !Settled(engines[n]))
    && (forall n :: n in kept ==> n in engines && kept[n] == engines[n])
  }

  lemma SplitNext(engines: Engines, names: seq<string>, i: nat, kept: Engines, refs: seq<string>)
    requires Ascending(names) && i < |names| && names[i] in engines
    requires SplitUpTo(engines, names, i, kept, refs)
    ensures if Settled(engines[names[i]]) then SplitUpTo(engines, names, i + 1, kept, refs + [names[i]])
            else SplitUpTo(engines, names, i + 1, kept[names[i] := engines[names[i]]], refs)
  {
    AppendAscending(names, i, refs);
    SortedNamesDistinct(names);
    assert names[..i + 1] == names[..i] + [names[i]];
    assert names[i] !in names[..i];
    hide Ascending;
  }

  // An engine still being created has no settled name to look up and is kept as it is.
  method SplitSettled(engines: Engines) returns (kept: Engines, refs: seq<string>)
    ensures refs == SortedNames(SettledNames(engines))
    ensures kept == engines - SettledNames(engines)
  {
    var names := SortedKeys(engines.Keys);
    kept, refs := map[], [];
    var i := 0;
    while i < |names|
      invariant 0 <= i <= |names|
      invariant SplitUpTo(engines, names, i, kept, refs)
    {
      var name := names[i];
      assert name in names;
      SplitNext(engines, names, i, kept, refs);
      if engines[name].inFlight || engines[name].name == NO_NAME {
        kept := kept[name := engines[name]];
      } else {
        refs := refs + [name];
      }
      i := i + 1;
    }
    SplitDone(engines, names, kept, refs);
  }

  lemma SplitDone(engines: Engines, names: seq<string>, kept: Engines, refs: seq<string>)
    requires names == SortedNames(engines.Keys) && SplitUpTo(engines, names, |names|, kept, refs)
    ensures refs == SortedNames(SettledNames(engines))
    ensures kept == engines - SettledNames(engines)
  {
    assert names[..|names|] == names;
    ListingUnique(refs, SortedNames(SettledNames(engines)), SettledNames(engines));
  }

  method AddSurvivors(unsettled: Engines, survivors: seq<string>, engines: Engines) returns (kept: Engines)
    requires unsettled.Keys <= engines.Keys && unsettled == engines - (engines.Keys - unsettled.Keys)
    requires forall n :: n in survivors ==> n in engines
    ensures kept == map n | n in engines && (n in unsettled || n in survivors) :: engines[n]
  {
    kept := unsettled;
    var i := 0;
    while i < |survivors|
      invariant 0 <= i <= |survivors|
      invariant kept == map n | n in engines && (n in unsettled || n in survivors[..i]) :: engines[n]
    {
      kept := kept[survivors[i] := engines[survivors[i]]];
      i := i + 1;
    }
    assert survivors[..|survivors|] == survivors;
  }

  method ReconcilePriorState(client: Client, prior: State) returns (reconciled: State, drift: seq<string>)
    modifies client
    ensures Reconciled(client.View(), reconciled, drift) == StateReconciled(old(client.View()), prior)
  {
    if prior.engines == map[] {
      ListingUnique(SortedNames(SettledNames(prior.engines)), [], {});
      assert prior.engines - {} == prior.engines;
      return prior, [];
    }
    var unsettled, refs := SplitSettled(prior.engines);
    ghost var arrived := client.View();
    var survivors, gone := ProbeRefs(client, refs, prior.engines);
    ProbeSplits(arrived, refs, prior.engines);
    ProbeDisjoint(arrived, refs, prior.engines);
    var kept := AddSurvivors(unsettled, survivors, prior.engines);
    assert kept == prior.engines - (set n | n in gone);
    return prior.(engines := kept), gone;
  }

  // ---- What reconciling decides ----

  // The control plane as the i-th lookup finds it.
  function CloudAt(c: Cloud, refs: seq<string>, engines: Engines, i: nat): Cloud
    requires i < |refs| && forall n :: n in refs ==> n in engines
    decreases i
  {
    if i == 0 then c
    else
      assert forall n :: n in refs[1..] ==> n in refs;
      CloudAt(Getting(c, engines[refs[0]].name).0, refs[1..], engines, i - 1)
  }

  // A reference is dropped exactly when its own lookup answers NotFound.
  lemma {:induction false} DroppedExactly(c: Cloud, refs: seq<string>, engines: Engines, i: nat)
    requires i < |refs| && Ascending(refs) && forall n :: n in refs ==> n in engines
    ensures refs[i] in ProbeAll(c, refs, engines).gone
            <==> Getting(CloudAt(c, refs, engines, i), engines[refs[i]].name).1 == Err(EngineNotFound)
    decreases i
  {
    var d := Getting(c, engines[refs[0]].name).0;
    assert forall n :: n in refs[1..] ==> n in refs;
    ProbeSplits(d, refs[1..], engines);
    SortedNamesDistinct(refs);
    assert refs[0] !in refs[1..];
    if i > 0 {
      DroppedExactly(d, refs[1..], engines, i - 1);
    }
  }

  // Lookups change nothing, and a dropped engine really is absent afterwards.
  lemma {:induction false} DroppedAreAbsent(c: Cloud, refs: seq<string>, engines: Engines)
    requires forall n :: n in refs ==> n in engines
    ensures var p := ProbeAll(c, refs, engines);
            && p.cloud.engines.Keys <= c.engines.Keys
            && forall n :: n in p.gone ==> n in engines && engines[n].name !in p.cloud.engines
    decreases |refs|
  {
    if refs != [] {
      assert forall n :: n in refs[1..] ==> n in refs;
      var d := Getting(c, engines[refs[0]].name).0;
      DroppedAreAbsent(d, refs[1..], engines);
      ProbeSplits(d, refs[1..], engines);
    }
  }

  // Reconciling partitions the prior names into kept and drifted ones, never drops
  // an unsettled or a live engine, and keeps every other field of the state.
  lemma ReconcilePartitions(c: Cloud, prior: State)
    ensures var r := StateReconciled(c, prior);
            && r.state == prior.(engines := r.state.engines)
            && (forall n :: n in prior.engines <==> n in r.state.engines || n in r.drift)
            && (forall n :: n in r.drift ==> n !in r.state.engines && Settled(prior.engines[n]))
            && (forall n :: n in r.state.engines ==> r.state.engines[n] == prior.engines[n])
            && Ascending(r.drift)
            && (forall n :: n in r.drift ==> prior.engines[n].name !in r.cloud.engines)
  {
    var refs := SortedNames(SettledNames(prior.engines));
    ProbeSplits(c, refs, prior.engines);
    ProbeDisjoint(c, refs, prior.engines);
    DroppedAreAbsent(c, refs, prior.engines);
  }

  // ---- The plan ----

  datatype PlanInput = PlanInput(
    agents: seq<string>,
    prior: State,
    packHash: string,
    configHash: string,
    delivery: PackDelivery,
    drift: seq<string>
  )

  function EngineAction(input: PlanInput, name: string): Action {
    if name !in input.prior.engines then CreateAction
    else if input.prior.engines[name].inFlight then UpdateAction
    else if input.prior.packHash == input.packHash && input.prior.configHash == input.configHash then NoChange
    else UpdateAction
  }

  function EngineChange(input: PlanInput, name: string): Change {
    Change(AgentRuntime, name, EngineAction(input, name))
  }

  function Changes(names: seq<string>, action: Action): seq<Change> {
    seq(|names|, i requires 0 <= i < |names| => Change(AgentRuntime, names[i], action))
  }

  ghost function PlannedEngines(input: PlanInput): seq<Change> {
    seq(|input.agents|, i requires 0 <= i < |input.agents| => EngineChange(input, input.agents[i]))
    + Changes(SortedNames(input.prior.engines.Keys - (set a | a in input.agents)), DeleteAction)
  }

  ghost function Planned(input: PlanInput): seq<Change> {
    Changes(input.drift, Drift)
    + PlannedEngines(input)
    + (if input.delivery.inlined then [] else [Change(PackObject, GcsUri.STAGED_PACK_NAME, CreateAction)])
  }

  method PlanEngineChanges(input: PlanInput) returns (changes: seq<Change>)
    ensures changes == PlannedEngines(input)
  {
    changes := [];
    var desired: set<string> := {};
    for i := 0 to |input.agents|
      invariant changes == seq(i, j requires 0 <= j < i => EngineChange(input, input.agents[j]))
      invariant desired == set a | a in input.agents[..i]
    {
      desired := desired + {input.agents[i]};
      changes := changes + [EngineChange(input, input.agents[i])];
    }
    assert input.agents[..|input.agents|] == input.agents;
    var removed := SortedKeys(input.prior.engines.Keys - desired);
    ghost var wanted := changes;
    for i := 0 to |removed|
      invariant changes == wanted + Changes(removed[..i], DeleteAction)
    {
      changes := changes + [Change(AgentRuntime, removed[i], DeleteAction)];
    }
    assert removed[..|removed|] == removed;
  }

  method BuildPlan(input: PlanInput) returns (changes: seq<Change>)
    ensures changes == Planned(input)
  {
    changes := [];
    for i := 0 to |input.drift|
      invariant changes == Changes(input.drift[..i], Drift)
    {
      changes := changes + [Change(AgentRuntime, input.drift[i], Drift)];
    }
    assert input.drift[..|input.drift|] == input.drift;
    var engines := PlanEngineChanges(input);
    changes := changes + engines;
    if !input.delivery.inlined {
      changes := changes + [Change(PackObject, GcsUri.STAGED_PACK_NAME, CreateAction)];
    }
    assert changes == Planned(input);
  }

  // The change at each position of the plan, part by part.
  ghost predicate PlanAt(input: PlanInput, removed: seq<string>, plan: seq<Change>, i: nat)
    requires i < |plan|
  {
    var d, a, r := |input.drift|, |input.agents|, |removed|;
    if i < d then plan[i] == Change(AgentRuntime, input.drift[i], Drift)
    else if i < d + a then plan[i] == EngineChange(input, input.agents[i - d])
    else if i < d + a + r then plan[i] == Change(AgentRuntime, removed[i - d - a], DeleteAction)
    else i == d + a + r && plan[i].resource.PackObject?
  }

  lemma PlanParts(input: PlanInput) returns (removed: seq<string>)
    ensures removed == SortedNames(input.prior.engines.Keys - (set a | a in input.agents))
    ensures forall n :: n in removed <==> n in input.prior.engines && n !in input.agents
    ensures |Planned(input)| >= |input.drift| + |input.agents| + |removed|
    ensures forall i :: 0 <= i < |Planned(input)| ==> PlanAt(input, removed, Planned(input), i)
  {
    removed := SortedNames(input.prior.engines.Keys - (set a | a in input.agents));
  }

  ghost predicate EngineOf(change: Change, name: string) {
    change.resource.AgentRuntime? && change.name == name
  }

  // Two changes for one name are its drift and, later, the engine change it explains.
  lemma PlanNamesOnce(input: PlanInput, removed: seq<string>, name: string, i: nat, j: nat)
    requires Ascending(input.agents) && Ascending(input.drift)
    requires Ascending(removed) && forall n :: n in removed <==> n in input.prior.engines && n !in input.agents
    requires i < j < |Planned(input)| && EngineOf(Planned(input)[i], name) && EngineOf(Planned(input)[j], name)
    requires PlanAt(input, removed, Planned(input), i) && PlanAt(input, removed, Planned(input), j)
    ensures Planned(input)[i].action.Drift? && !Planned(input)[j].action.Drift?
  {
    SortedNamesDistinct(input.agents);
    SortedNamesDistinct(input.drift);
    SortedNamesDistinct(removed);
    assert forall k :: 0 <= k < |removed| ==> removed[k] in removed && removed[k] !in input.agents;
  }

  // The plan holds exactly one non-drift engine change for each name in the agents
  // and the kept engines, a delete exactly for a kept name no agent wants, and one
  // drift change, ahead of it, for each drifted name.
  lemma PlanPartitions(input: PlanInput, name: string)
    requires Ascending(input.agents) && Ascending(input.drift)
    ensures var plan := Planned(input);
            && (name in input.agents || name in input.prior.engines
                <==> exists i :: 0 <= i < |plan| && EngineOf(plan[i], name) && !plan[i].action.Drift?)
            && (forall i, j :: 0 <= i < j < |plan| && EngineOf(plan[i], name) && EngineOf(plan[j], name)
                               ==> plan[i].action.Drift? && !plan[j].action.Drift?)
            && (name in input.prior.engines && name !in input.agents
                <==> Change(AgentRuntime, name, DeleteAction) in plan)
            && (name in input.drift <==> Change(AgentRuntime, name, Drift) in plan)
            && (name in input.agents ==> EngineChange(input, name) in plan)
  {
    var plan := Planned(input);
    var removed := PlanParts(input);
    hide Planned, PlannedEngines;
    forall i, j | 0 <= i < j < |plan| && EngineOf(plan[i], name) && EngineOf(plan[j], name)
      ensures plan[i].action.Drift? && !plan[j].action.Drift?
    {
      PlanNamesOnce(input, removed, name, i, j);
    }
    forall i | 0 <= i < |plan| && EngineOf(plan[i], name)
      ensures plan[i].action.Drift? ==> name in input.drift
      ensures !plan[i].action.Drift? ==> name in input.agents || name in input.prior.engines
      ensures plan[i].action.DeleteAction? ==> name in removed
    {
      assert PlanAt(input, removed, plan, i);
      assert plan[i].action.DeleteAction? ==> removed[i - |input.drift| - |input.agents|] in removed;
    }
    if name in input.drift {
      var k :| 0 <= k < |input.drift| && input.drift[k] == name;
      assert PlanAt(input, removed, plan, k);
    }
    if name in input.agents {
      var k :| 0 <= k < |input.agents| && input.agents[k] == name;
      assert PlanAt(input, removed, plan, |input.drift| + k);
      assert EngineOf(plan[|input.drift| + k], name);
    } else if name in input.prior.engines {
      assert name in removed;
      var k :| 0 <= k < |removed| && removed[k] == name;
      assert PlanAt(input, removed, plan, |input.drift| + |input.agents| + k);
      assert EngineOf(plan[|input.drift| + |input.agents| + k], name);
    }
  }

  // Which action each desired agent's one change carries: a create without a record,
  // no change only for a record that is not in flight under the very same hashes, and
  // an update for any other.
  lemma PlanActions(input: PlanInput, name: string)
    requires Ascending(input.agents) && Ascending(input.drift) && name in input.agents
    ensures var plan := Planned(input);
            && (name !in input.prior.engines <==> Change(AgentRuntime, name, CreateAction) in plan)
            && (name in input.prior.engines && !input.prior.engines[name].inFlight
                && input.prior.packHash == input.packHash && input.prior.configHash == input.configHash
                <==> Change(AgentRuntime, name, NoChange) in plan)
            && (name in input.prior.engines
                && (input.prior.engines[name].inFlight || input.prior.packHash != input.packHash
                    || input.prior.configHash != input.configHash)
                <==> Change(AgentRuntime, name, UpdateAction) in plan)
  {
    PlanPartitions(input, name);
    hide Planned, PlannedEngines;
    var plan := Planned(input);
    var own := EngineChange(input, name);
    var k :| 0 <= k < |plan| && plan[k] == own;
    forall change | change in plan && EngineOf(change, name) && !change.action.Drift?
      ensures change == own
    {
      var i :| 0 <= i < |plan| && plan[i] == change;
      assert EngineOf(plan[k], name) && EngineOf(plan[i], name);
    }
    assert EngineOf(Change(AgentRuntime, name, CreateAction), name);
  }

  // The plan announces the upload of the pack exactly when it does not travel inline,
  // once and last, and no other change is about an object.
  lemma PlanPackObject(input: PlanInput)
    ensures var plan, upload := Planned(input), Change(PackObject, GcsUri.STAGED_PACK_NAME, CreateAction);
            && (upload in plan <==> !input.delivery.inlined)
            && (forall i :: 0 <= i < |plan| && plan[i].resource.PackObject? ==> plan[i] == upload && i == |plan| - 1)
  {
    var engines := Changes(input.drift, Drift) + PlannedEngines(input);
    EnginesOnly(input);
    hide PlannedEngines, Changes;
    assert !input.delivery.inlined ==> Planned(input)[|engines|] == Planned(input)[|Planned(input)| - 1];
  }

  lemma EnginesOnly(input: PlanInput)
    ensures var engines := Changes(input.drift, Drift) + PlannedEngines(input);
            forall i :: 0 <= i < |engines| ==> engines[i].resource.AgentRuntime?
  {}
}
