/** What one apply does to the deployment, whatever the oracle decides: which engines
    it may touch, what it leaves unrecorded, and what a recorded agent's engine runs. */
module ApplyFacts {
  import opened Texts
  import opened AdapterState
  import opened Inputs
  import opened EngineSpecs
  import opened ControlPlane
  import opened Apply
  import GcsUri

  ghost function Recorded(engines: Engines): set<ResourceName> {
    set a | a in engines :: engines[a].name
  }

  // No two agents record the same engine.
  ghost predicate Distinct(engines: Engines) {
    forall a, b :: a in engines && b in engines && engines[a].name == engines[b].name ==> a == b
  }

  // Every record is settled on an engine one of our creates brought up.
  ghost predicate Owned(c: Cloud, engines: Engines) {
    forall a :: a in engines ==> !engines[a].inFlight && engines[a].name in c.created
  }

  ghost predicate Consistent(c: Cloud, engines: Engines) {
    SaneCloud(c) && Distinct(engines) && Owned(c, engines)
  }

  // Live engines our creates brought up that no agent records.
  ghost function Orphans(c: Cloud, engines: Engines): set<ResourceName> {
    set n | n in c.engines && n in c.created && n !in Recorded(engines)
  }

  // ---- How far the control plane may move ----

  ghost predicate Touches(call: Call, mine: set<ResourceName>) {
    match call
    case Create(_) => true
    case Update(n, _) => n in mine
    case Delete(n) => n in mine
    case Get(_) => true
    case Stage(_) => true
  }

  // From c to d only engines of mine were changed or removed; any other engine is as
  // it was unless it was lost out of band, and whatever is new is ours.
  ghost predicate Evolves(c: Cloud, d: Cloud, mine: set<ResourceName>) {
    && c.fate == d.fate
    && c.log <= d.log
    && (forall i :: |c.log| <= i < |d.log| ==> Touches(d.log[i], mine))
    && c.next <= d.next
    && c.created <= d.created
    && c.lost <= d.lost
    && (Calm(c) ==> d.lost == c.lost)
    && (forall n :: n in d.created && n !in c.created ==> n >= c.next)
    && (forall n :: n in c.engines && n !in mine ==> n in d.lost || (n in d.engines && d.engines[n] == c.engines[n]))
    && (forall n :: n in d.engines && n !in c.engines ==> n in d.created && n !in c.created)
  }

  lemma EvolvesTransitive(c: Cloud, d: Cloud, e: Cloud, mine: set<ResourceName>)
    requires Evolves(c, d, mine) && Evolves(d, e, mine)
    ensures Evolves(c, e, mine)
  {}

  lemma EvolvesWider(c: Cloud, d: Cloud, few: set<ResourceName>, many: set<ResourceName>)
    requires Evolves(c, d, few) && few <= many
    ensures Evolves(c, d, many)
  {}

  // ---- One agent ----

  ghost predicate Serves(c: Cloud, name: ResourceName, spec: EngineSpec) {
    name in c.engines && c.engines[name] == spec
  }

  lemma CreatingFacts(c: Cloud, spec: EngineSpec)
    requires SaneCloud(c)
    ensures var (d, r) := Creating(c, spec);
            && SaneCloud(d) && Evolves(c, d, {})
            && (r.Ok? ==> r.value == c.next && r.value in d.created && Serves(d, r.value, spec))
            && d.created - c.created <= {c.next}
  {}

  lemma UpdatingFacts(c: Cloud, name: ResourceName, spec: EngineSpec)
    requires SaneCloud(c)
    ensures var (d, r) := Updating(c, name, spec);
            && SaneCloud(d) && Evolves(c, d, {name})
            && (r.Ok? ==> r.value == name && Serves(d, name, spec))
            && (r == Err(EngineNotFound) ==> name !in d.engines)
            && d.created == c.created
  {}

  lemma DeletingFacts(c: Cloud, name: ResourceName)
    requires SaneCloud(c)
    ensures var (d, r) := Deleting(c, name);
            && SaneCloud(d) && Evolves(c, d, {name})
            && (r.Ok? ==> name !in d.engines)
            && d.created == c.created
  {}

  lemma StagingFacts(c: Cloud, uri: string, data: string)
    requires SaneCloud(c)
    ensures var (d, r) := Staging(c, uri, data);
            SaneCloud(d) && Evolves(c, d, {}) && d.created == c.created
  {
    hide GcsUri.SplitGcsUri;
  }

  // What handling one agent does, old being the engine it recorded, if any. A
  // settled call leaves the agent's engine running its spec: the recorded engine, or
  // a brand new one when the recorded one is gone. A failed call leaves at most one
  // engine, the slip, that nothing will record.
  ghost predicate AgentStep(
    c: Cloud, d: Cloud, old': set<ResourceName>, made: Option<ResourceName>, spec: EngineSpec, slip: ResourceName
  ) {
    && SaneCloud(d)
    && Evolves(c, d, old')
    && match made
       case Some(name) =>
         && name in d.created + old'
         && Serves(d, name, spec)
         && (name in old' || name !in c.created)
         && (forall n :: n in old' && n != name ==> n !in d.engines)
         && (forall n :: n in d.created && n !in c.created ==> n == name)
       case None =>
         && (forall n :: n in old' && n in d.engines ==> n == slip)
         && (forall n :: n in d.created && n !in c.created ==> n == slip)
  }

  ghost function OldName(prior: Engines, agent: string): set<ResourceName> {
    if agent in prior then {prior[agent].name} else {}
  }

  lemma CreateStep(c: Cloud, spec: EngineSpec, old': set<ResourceName>)
    requires SaneCloud(c) && old' !! c.engines.Keys && (forall n :: n in old' ==> n < c.next)
    ensures var (d, made) := Created(Creating(c, spec));
            AgentStep(c, d, old', made, spec, c.next)
  {
    CreatingFacts(c, spec);
    EvolvesWider(c, Creating(c, spec).0, {}, old');
  }

  lemma UpdateStep(c: Cloud, name: ResourceName, spec: EngineSpec)
    requires SaneCloud(c) && Updating(c, name, spec).1 != Err(EngineNotFound)
    ensures var (d, made) := Created(Updating(c, name, spec));
            AgentStep(c, d, {name}, made, spec, name)
  {
    UpdatingFacts(c, name, spec);
  }

  lemma RecreateStep(c: Cloud, name: ResourceName, spec: EngineSpec)
    requires SaneCloud(c) && name < c.next && Updating(c, name, spec).1 == Err(EngineNotFound)
    ensures var d := Updating(c, name, spec).0;
            var (e, made) := Created(Creating(d, spec));
            AgentStep(c, e, {name}, made, spec, d.next)
  {
    UpdatingFacts(c, name, spec);
    var d := Updating(c, name, spec).0;
    CreateStep(d, spec, {name});
    EvolvesTransitive(c, d, Creating(d, spec).0, {name});
  }

  lemma PutStep(c: Cloud, spec: EngineSpec, agent: string, prior: Engines) returns (slip: ResourceName)
    requires SaneCloud(c) && (agent in prior ==> prior[agent].name < c.next)
    ensures var (d, made) := PutEngine(c, spec, agent, prior);
            AgentStep(c, d, OldName(prior, agent), made, spec, slip)
  {
    if agent !in prior || prior[agent].name == NO_NAME {
      slip := c.next;
      CreateStep(c, spec, OldName(prior, agent));
    } else if Updating(c, prior[agent].name, spec).1 == Err(EngineNotFound) {
      slip := Updating(c, prior[agent].name, spec).0.next;
      RecreateStep(c, prior[agent].name, spec);
    } else {
      slip := prior[agent].name;
      UpdateStep(c, prior[agent].name, spec);
    }
  }

  lemma OneAgent(buildable: bool, specs: Specs, c: Cloud, agent: string, prior: Engines) returns (slip: ResourceName)
    requires SaneCloud(c) && (agent in prior ==> prior[agent].name < c.next)
    ensures var (d, made) := OneApplied(buildable, specs, c, agent, prior);
            AgentStep(c, d, OldName(prior, agent), made, specs(agent), slip)
  {
    slip := if agent in prior then prior[agent].name else NO_NAME;
    if buildable {
      slip := PutStep(c, specs(agent), agent, prior);
    }
  }

  // ---- The loop over the agents ----

  // Between two agents: the invariant, and every agent still to come is recorded
  // in next exactly as it was in prior.
  ghost predicate Between(c: Cloud, prior: Engines, next: Engines, todo: seq<string>) {
    && Consistent(c, next)
    && Ascending(todo)
    && (forall a :: a in todo ==> (a in prior <==> a in next))
    && (forall a :: a in todo && a in prior ==> next[a] == prior[a])
  }

  // The agents of done are recorded, and their engines run these specs unless they
  // were lost out of band since the apply began.
  ghost predicate Deployed(specs: Specs, lost: set<ResourceName>, c: Cloud, engines: Engines, done: set<string>) {
    && lost <= c.lost
    && forall a :: a in done ==>
         a in engines && (Serves(c, engines[a].name, specs(a)) || engines[a].name in c.lost - lost)
  }

  ghost function Record(engines: Engines, agent: string, name: ResourceName): Engines {
    engines[agent := EngineState(name, false)]
  }

  lemma RecordedAfter(engines: Engines, agent: string, name: ResourceName)
    ensures name in Recorded(Record(engines, agent, name))
    ensures forall n :: n in Recorded(engines)
                        ==> n in Recorded(Record(engines, agent, name)) || n in OldName(engines, agent)
  {
    var after := Record(engines, agent, name);
    assert agent in after && after[agent].name == name;
    forall n | n in Recorded(engines)
      ensures n in Recorded(after) || n in OldName(engines, agent)
    {
      var a :| a in engines && engines[a].name == n;
      assert a != agent ==> a in after && after[a].name == n;
    }
  }

  lemma StepKeepsConsistent(
    c: Cloud, d: Cloud, next: Engines, agent: string, name: ResourceName, spec: EngineSpec, slip: ResourceName
  )
    requires Consistent(c, next) && AgentStep(c, d, OldName(next, agent), Some(name), spec, slip)
    ensures Consistent(d, Record(next, agent, name))
  {}

  lemma StepAddsNoOrphan(
    c: Cloud, d: Cloud, next: Engines, agent: string, name: ResourceName, spec: EngineSpec, slip: ResourceName
  )
    requires Consistent(c, next) && AgentStep(c, d, OldName(next, agent), Some(name), spec, slip)
    ensures Orphans(d, Record(next, agent, name)) <= Orphans(c, next)
  {
    RecordedAfter(next, agent, name);
    forall n | n in Orphans(d, Record(next, agent, name))
      ensures n in Orphans(c, next)
    {
      assert n in c.engines ==> n in c.created;
    }
  }

  lemma FailureAddsOneOrphan(c: Cloud, d: Cloud, next: Engines, agent: string, spec: EngineSpec, slip: ResourceName)
    requires Consistent(c, next) && AgentStep(c, d, OldName(next, agent), None, spec, slip)
    ensures Consistent(d, next - {agent})
    ensures Orphans(d, next - {agent}) <= Orphans(c, next) + {slip}
  {
    forall n | n in Recorded(next)
      ensures n in Recorded(next - {agent}) || n in OldName(next, agent)
    {
      var a :| a in next && next[a].name == n;
      assert a != agent ==> a in next - {agent} && (next - {agent})[a].name == n;
    }
  }

  lemma StepKeepsDeployed(
    specs: Specs, lost: set<ResourceName>, c: Cloud, d: Cloud, next: Engines, agent: string, name: ResourceName,
    slip: ResourceName, done: set<string>
  )
    requires Consistent(c, next) && AgentStep(c, d, OldName(next, agent), Some(name), specs(agent), slip)
    requires Deployed(specs, lost, c, next, done) && agent !in done
    ensures Deployed(specs, lost, d, Record(next, agent, name), done + {agent})
  {}

  lemma FailureKeepsDeployed(
    specs: Specs, lost: set<ResourceName>, c: Cloud, d: Cloud, next: Engines, agent: string, spec: EngineSpec,
    slip: ResourceName, done: set<string>
  )
    requires Consistent(c, next) && AgentStep(c, d, OldName(next, agent), None, spec, slip)
    requires Deployed(specs, lost, c, next, done) && agent !in done
    ensures Deployed(specs, lost, d, next - {agent}, done)
  {}

  ghost function Names(agents: seq<string>): set<string> {
    set a | a in agents
  }

  // The records after an apply that settled the first `reached` agents and, unless it
  // settled them all, struck the next one.
  ghost predicate Rewritten(before: Engines, after: Engines, agents: seq<string>, reached: nat)
    requires reached <= |agents|
  {
    && after.Keys == before.Keys + Names(agents[..reached]) - (if reached < |agents| then {agents[reached]} else {})
    && (forall a :: a in after && a !in agents[..reached] ==> after[a] == before[a])
  }

  lemma RewrittenCons(before: Engines, after: Engines, agents: seq<string>, reached: nat, name: ResourceName)
    requires agents != [] && reached <= |agents| - 1 && agents[0] !in agents[1..]
    requires Rewritten(Record(before, agents[0], name), after, agents[1..], reached)
    ensures Rewritten(before, after, agents, reached + 1)
  {}

  // Where the loop stopped, what it recorded, and what it left unrecorded.
  ghost predicate AgentsOutcome(
    specs: Specs, lost: set<ResourceName>, c: Cloud, next: State, agents: seq<string>, done: set<string>,
    mine: set<ResourceName>,
    r: Applied, reached: nat, slip: ResourceName
  ) {
    && reached <= |agents|
    && r.err == (if reached == |agents| then None else Some(AgentFailed(agents[reached])))
    && r.state == next.(engines := r.state.engines)
    && Rewritten(next.engines, r.state.engines, agents, reached)
    && Deployed(specs, lost, r.cloud, r.state.engines, done + Names(agents[..reached]))
    && Consistent(r.cloud, r.state.engines)
    && Evolves(c, r.cloud, mine)
    && Orphans(r.cloud, r.state.engines)
       <= Orphans(c, next.engines) + (if reached == |agents| then {} else {slip})
  }

  lemma AgentsStop(
    specs: Specs, lost: set<ResourceName>, c: Cloud, d: Cloud, next: State, agents: seq<string>, done: set<string>,
    mine: set<ResourceName>, slip: ResourceName
  )
    requires agents != [] && agents[0] !in done && OldName(next.engines, agents[0]) <= mine
    requires Consistent(c, next.engines) && Deployed(specs, lost, c, next.engines, done)
    requires AgentStep(c, d, OldName(next.engines, agents[0]), None, specs(agents[0]), slip)
    ensures var r := Applied(d, next.(engines := next.engines - {agents[0]}), Some(AgentFailed(agents[0])));
            AgentsOutcome(specs, lost, c, next, agents, done, mine, r, 0, slip)
  {
    var agent := agents[0];
    FailureAddsOneOrphan(c, d, next.engines, agent, specs(agent), slip);
    FailureKeepsDeployed(specs, lost, c, d, next.engines, agent, specs(agent), slip, done);
    EvolvesWider(c, d, OldName(next.engines, agent), mine);
    assert agents[..0] == [];
  }

  lemma AgentsCons(
    specs: Specs, lost: set<ResourceName>, c: Cloud, d: Cloud, next: State, agents: seq<string>, done: set<string>,
    mine: set<ResourceName>,
    name: ResourceName, first: ResourceName, r: Applied, reached: nat, slip: ResourceName
  )
    requires agents != [] && agents[0] !in agents[1..] && OldName(next.engines, agents[0]) <= mine
    requires Consistent(c, next.engines)
    requires AgentStep(c, d, OldName(next.engines, agents[0]), Some(name), specs(agents[0]), first)
    requires AgentsOutcome(specs, lost, d, next.(engines := Record(next.engines, agents[0], name)), agents[1..],
                           done + {agents[0]}, mine, r, reached, slip)
    ensures AgentsOutcome(specs, lost, c, next, agents, done, mine, r, reached + 1, slip)
  {
    hide Rewritten, SaneCloud, Deployed;
    var agent := agents[0];
    EvolvesWider(c, d, OldName(next.engines, agent), mine);
    EvolvesTransitive(c, d, r.cloud, mine);
    StepAddsNoOrphan(c, d, next.engines, agent, name, specs(agent), first);
    RewrittenCons(next.engines, r.state.engines, agents, reached, name);
    assert agents[..reached + 1] == [agent] + agents[1..][..reached];
    assert done + {agent} + Names(agents[1..][..reached]) == done + Names(agents[..reached + 1]);
  }

  lemma BetweenNext(
    c: Cloud, d: Cloud, prior: Engines, next: Engines, todo: seq<string>, name: ResourceName, spec: EngineSpec,
    slip: ResourceName
  )
    requires todo != [] && Between(c, prior, next, todo)
    requires AgentStep(c, d, OldName(next, todo[0]), Some(name), spec, slip)
    ensures Between(d, prior, Record(next, todo[0], name), todo[1..])
  {
    StepKeepsConsistent(c, d, next, todo[0], name, spec, slip);
    SortedNamesDistinct(todo);
    forall a | a in todo[1..]
      ensures a in todo && a != todo[0]
    {}
  }

  // What the loop needs before it handles the agents of todo.
  ghost predicate Ready(
    specs: Specs, lost: set<ResourceName>, c: Cloud, prior: Engines, next: Engines, todo: seq<string>,
    done: set<string>, mine: set<ResourceName>
  ) {
    && Between(c, prior, next, todo)
    && Deployed(specs, lost, c, next, done)
    && done !! Names(todo)
    && (forall a :: a in todo ==> OldName(prior, a) <= mine)
  }

  lemma ReadyHead(
    specs: Specs, lost: set<ResourceName>, c: Cloud, prior: Engines, next: Engines, todo: seq<string>,
    done: set<string>, mine: set<ResourceName>
  )
    requires todo != [] && Ready(specs, lost, c, prior, next, todo, done, mine)
    ensures OldName(prior, todo[0]) == OldName(next, todo[0]) <= mine
    ensures todo[0] !in todo[1..] && todo[0] !in done
    ensures SaneCloud(c) && (todo[0] in prior ==> prior[todo[0]].name < c.next)
    ensures Consistent(c, next) && Deployed(specs, lost, c, next, done)
  {
    SortedNamesDistinct(todo);
    assert todo[0] in todo;
    assert todo[0] in Names(todo);
  }

  lemma ReadyNext(
    specs: Specs, lost: set<ResourceName>, c: Cloud, d: Cloud, prior: Engines, next: Engines, todo: seq<string>,
    done: set<string>, mine: set<ResourceName>, name: ResourceName, slip: ResourceName
  )
    requires todo != [] && Ready(specs, lost, c, prior, next, todo, done, mine)
    requires AgentStep(c, d, OldName(next, todo[0]), Some(name), specs(todo[0]), slip)
    ensures Ready(specs, lost, d, prior, Record(next, todo[0], name), todo[1..], done + {todo[0]}, mine)
  {
    ReadyHead(specs, lost, c, prior, next, todo, done, mine);
    BetweenNext(c, d, prior, next, todo, name, specs(todo[0]), slip);
    StepKeepsDeployed(specs, lost, c, d, next, todo[0], name, slip, done);
    assert forall a :: a in todo[1..] ==> a in todo;
  }

  lemma AgentsNone(
    specs: Specs, lost: set<ResourceName>, c: Cloud, prior: Engines, next: State, done: set<string>,
    mine: set<ResourceName>
  )
    requires Ready(specs, lost, c, prior, next.engines, [], done, mine)
    ensures AgentsOutcome(specs, lost, c, next, [], done, mine, Applied(c, next, None), 0, NO_NAME)
  {}

  lemma {:induction false} AgentsFacts(
    buildable: bool, specs: Specs, lost: set<ResourceName>, c: Cloud, agents: seq<string>, prior: Engines, next: State,
    done: set<string>, mine: set<ResourceName>
  ) returns (reached: nat, slip: ResourceName)
    requires Ready(specs, lost, c, prior, next.engines, agents, done, mine)
    ensures AgentsOutcome(specs, lost, c, next, agents, done, mine,
                          AgentsApplied(buildable, specs, c, agents, prior, next), reached, slip)
    decreases |agents|
  {
    hide Evolves, SaneCloud, Rewritten;
    if agents == [] {
      AgentsNone(specs, lost, c, prior, next, done, mine);
      return 0, NO_NAME;
    }
    var agent := agents[0];
    ReadyHead(specs, lost, c, prior, next.engines, agents, done, mine);
    slip := OneAgent(buildable, specs, c, agent, prior);
    var (d, made) := OneApplied(buildable, specs, c, agent, prior);
    if made.None? {
      AgentsStop(specs, lost, c, d, next, agents, done, mine, slip);
      return 0, slip;
    }
    var first, name := slip, made.value;
    var next' := next.(engines := Record(next.engines, agent, name));
    ReadyNext(specs, lost, c, d, prior, next.engines, agents, done, mine, name, first);
    reached, slip := AgentsFacts(buildable, specs, lost, d, agents[1..], prior, next', done + {agent}, mine);
    var r := AgentsApplied(buildable, specs, d, agents[1..], prior, next');
    AgentsCons(specs, lost, c, d, next, agents, done, mine, name, first, r, reached, slip);
    reached := reached + 1;
  }

  // ---- The loop over the retired agents ----

  // Deleting strikes a prefix of the listed names and nothing else.
  ghost predicate Struck(before: Engines, after: Engines, names: seq<string>, reached: nat)
    requires reached <= |names|
  {
    after == before - Names(names[..reached])
  }

  lemma StruckCons(before: Engines, after: Engines, names: seq<string>, reached: nat)
    requires names != [] && reached <= |names| - 1
    requires Struck(before - {names[0]}, after, names[1..], reached)
    ensures Struck(before, after, names, reached + 1)
  {}

  lemma DeleteAddsNoOrphan(c: Cloud, next: Engines, agent: string)
    requires Consistent(c, next) && agent in next
    ensures var (d, r) := Deleting(c, next[agent].name);
            && Consistent(d, next) && Orphans(d, next) <= Orphans(c, next)
            && (r.Ok? ==> Consistent(d, next - {agent}) && Orphans(d, next - {agent}) <= Orphans(c, next))
  {
    DeletingFacts(c, next[agent].name);
    var d := Deleting(c, next[agent].name).0;
    forall n | n in Recorded(next)
      ensures n in Recorded(next - {agent}) || n == next[agent].name
    {
      var a :| a in next && next[a].name == n;
      assert a != agent ==> a in next - {agent} && (next - {agent})[a].name == n;
    }
  }

  lemma DeleteKeepsDeployed(specs: Specs, lost: set<ResourceName>, c: Cloud, next: Engines, agent: string,
      done: set<string>)
    requires Consistent(c, next) && agent in next && agent !in done && Deployed(specs, lost, c, next, done)
    ensures var d := Deleting(c, next[agent].name).0;
            Deployed(specs, lost, d, next, done) && Deployed(specs, lost, d, next - {agent}, done)
  {}

  // Where the deletions stopped and what they left.
  ghost predicate NamesOutcome(
    specs: Specs, lost: set<ResourceName>, c: Cloud, next: State, names: seq<string>, done: set<string>,
    mine: set<ResourceName>, r: Applied, reached: nat
  ) {
    && reached <= |names|
    && r.err == (if reached == |names| then None else Some(DeleteFailed(names[reached])))
    && r.state == next.(engines := r.state.engines)
    && Struck(next.engines, r.state.engines, names, reached)
    && Deployed(specs, lost, r.cloud, r.state.engines, done)
    && Consistent(r.cloud, r.state.engines)
    && Evolves(c, r.cloud, mine)
    && Orphans(r.cloud, r.state.engines) <= Orphans(c, next.engines)
  }

  ghost predicate Deletable(next: Engines, names: seq<string>, done: set<string>, mine: set<ResourceName>) {
    && Ascending(names)
    && (forall n :: n in names ==> n in next && n !in done && next[n].name in mine)
    && (forall i, j | 0 <= i < j < |names| :: names[i] != names[j])
  }

  lemma {:induction false} NamesFacts(
    specs: Specs, lost: set<ResourceName>, c: Cloud, names: seq<string>, next: State, done: set<string>,
    mine: set<ResourceName>
  ) returns (reached: nat)
    requires Consistent(c, next.engines) && Deletable(next.engines, names, done, mine)
    requires Deployed(specs, lost, c, next.engines, done)
    ensures NamesOutcome(specs, lost, c, next, names, done, mine, NamesDeleted(c, names, next), reached)
    decreases |names|
  {
    reached := 0;
    if names != [] {
      var agent := names[0];
      var name := next.engines[agent].name;
      DeletingFacts(c, name);
      DeleteAddsNoOrphan(c, next.engines, agent);
      DeleteKeepsDeployed(specs, lost, c, next.engines, agent, done);
      var (d, r) := Deleting(c, name);
      EvolvesWider(c, d, {name}, mine);
      assert next.engines - {} == next.engines && Names(names[..0]) == {};
      if r.Ok? {
        var next' := next.(engines := next.engines - {agent});
        forall n | n in names[1..]
          ensures n in names && n != agent
        {}
        reached := NamesFacts(specs, lost, d, names[1..], next', done, mine);
        var rest := NamesDeleted(d, names[1..], next');
        EvolvesTransitive(c, d, rest.cloud, mine);
        StruckCons(next.engines, rest.state.engines, names, reached);
        reached := reached + 1;
      }
    }
  }
}
