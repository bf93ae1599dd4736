/** Which engines an apply leaves live and unrecorded that were not so before, exactly. */
module OrphanCauses {
  import opened Texts
  import opened AdapterState
  import opened Inputs
  import opened EngineSpecs
  import opened ControlPlane
  import opened Apply
  import opened ApplyFacts
  import opened ApplyTheorems
  import opened NoChangeSoundness
  import GcsUri

  // The engine of the last call since c, when that call was a create which took effect
  // and was reported as failed.
  function Slipped(c: Cloud, d: Cloud): set<ResourceName> {
    if && |c.log| < |d.log| && d.next > NO_NAME
       && d.log[|d.log| - 1].Create? && d.fate(|d.log| - 1).outcome.FailLate?
    then {d.next - 1} else {}
  }

  // What stopping at this agent leaves: its recorded engine if that is still live, and
  // what its own create brought up.
  ghost function LeftBy(c: Cloud, d: Cloud, prior: Engines, agent: string): set<ResourceName> {
    OldName(prior, agent) * d.engines.Keys + Slipped(c, d)
  }

  // ---- One agent ----

  // Nothing came up from c to d but these.
  ghost predicate Adds(c: Cloud, d: Cloud, added: set<ResourceName>) {
    && SaneCloud(d) && c.next <= d.next && c.fate == d.fate && c.log <= d.log
    && d.created == c.created + added && (forall n :: n in added ==> n >= c.next)
    && added <= d.engines.Keys <= c.engines.Keys + added
  }

  lemma StruckExactly(c: Cloud, d: Cloud, next: Engines, agent: string, added: set<ResourceName>)
    requires Consistent(c, next) && Adds(c, d, added)
    ensures Orphans(d, next - {agent}) - Orphans(c, next) == OldName(next, agent) * d.engines.Keys + added
  {
    forall n | n in Recorded(next)
      ensures n in Recorded(next - {agent}) <==> n !in OldName(next, agent)
    {
      var a :| a in next && next[a].name == n;
      assert a != agent ==> a in next - {agent} && (next - {agent})[a].name == n;
    }
    assert forall n :: n in Recorded(next - {agent}) ==> n in Recorded(next);
  }

  lemma CreateSlips(c: Cloud, spec: EngineSpec)
    requires SaneCloud(c) && Creating(c, spec).1.Err?
    ensures var d := Creating(c, spec).0; Adds(c, d, Slipped(c, d)) && |c.log| < |d.log|
  {}

  lemma UpdateSlipsNot(c: Cloud, name: ResourceName, spec: EngineSpec)
    requires SaneCloud(c)
    ensures var d := Updating(c, name, spec).0;
            Adds(c, d, {}) && Slipped(c, d) == {} && |c.log| < |d.log|
  {}

  lemma FailedPutSlips(c: Cloud, spec: EngineSpec, agent: string, prior: Engines)
    requires SaneCloud(c) && PutEngine(c, spec, agent, prior).1.None?
    ensures var d := PutEngine(c, spec, agent, prior).0; Adds(c, d, Slipped(c, d)) && |c.log| < |d.log|
  {
    if agent !in prior || prior[agent].name == NO_NAME {
      CreateSlips(c, spec);
    } else {
      var (d, r) := Updating(c, prior[agent].name, spec);
      UpdateSlipsNot(c, prior[agent].name, spec);
      hide Updating;
      if r == Err(EngineNotFound) {
        CreateSlips(d, spec);
        hide Creating, SaneCloud;
      }
    }
  }

  lemma FailedAgentLeaves(buildable: bool, specs: Specs, c: Cloud, agent: string, prior: Engines, next: Engines)
    requires Consistent(c, next) && OldName(next, agent) == OldName(prior, agent)
    requires OneApplied(buildable, specs, c, agent, prior).1.None?
    ensures var d := OneApplied(buildable, specs, c, agent, prior).0;
            && Orphans(d, next - {agent}) - Orphans(c, next) == LeftBy(c, d, prior, agent)
            && Adds(c, d, Slipped(c, d)) && (if buildable then |c.log| < |d.log| else d == c)
  {
    if buildable {
      FailedPutSlips(c, specs(agent), agent, prior);
    }
    var d := OneApplied(buildable, specs, c, agent, prior).0;
    assert Adds(c, d, Slipped(c, d));
    hide PutEngine, Slipped, Consistent, Orphans, Adds;
    StruckExactly(c, d, next, agent, Slipped(c, d));
  }

  // ---- The loop up to the agent that failed ----

  // From c the agents before it were settled, leaving nothing unrecorded.
  ghost predicate Leads(c: Cloud, next: Engines, d: Cloud, before: Engines) {
    && SaneCloud(c) && Consistent(d, before)
    && c.fate == d.fate && c.log <= d.log && c.next <= d.next && c.created <= d.created
    && Orphans(d, before) <= Orphans(c, next)
  }

  lemma LeadsOn(c: Cloud, next: Engines, d: Cloud, mid: Engines, e: Cloud, before: Engines)
    requires Leads(c, next, d, mid) && Leads(d, mid, e, before)
    ensures Leads(c, next, e, before)
  {}

  lemma SettledLeads(
    buildable: bool, specs: Specs, c: Cloud, todo: seq<string>, prior: Engines, next: Engines
  ) returns (d: Cloud, mid: Engines)
    requires todo != [] && Between(c, prior, next, todo)
    requires OneApplied(buildable, specs, c, todo[0], prior).1.Some?
    ensures d == OneApplied(buildable, specs, c, todo[0], prior).0
    ensures mid == Record(next, todo[0], OneApplied(buildable, specs, c, todo[0], prior).1.value)
    ensures Leads(c, next, d, mid) && Between(d, prior, mid, todo[1..])
  {
    assert todo[0] in todo;
    assert OldName(prior, todo[0]) == OldName(next, todo[0]);
    assert todo[0] in prior ==> prior[todo[0]].name < c.next;
    hide SaneCloud, PutEngine;
    var slip := OneAgent(buildable, specs, c, todo[0], prior);
    d := OneApplied(buildable, specs, c, todo[0], prior).0;
    var name := OneApplied(buildable, specs, c, todo[0], prior).1.value;
    mid := Record(next, todo[0], name);
    BetweenNext(c, d, prior, next, todo, name, specs(todo[0]), slip);
    StepAddsNoOrphan(c, d, next, todo[0], name, specs(todo[0]), slip);
  }

  // Where the loop stood when it stopped, and how it stopped.
  ghost predicate StopsFrom(
    buildable: bool, specs: Specs, c: Cloud, agent: string, prior: Engines, next: Engines, d: Cloud, before: Engines,
    r: Applied
  ) {
    && Leads(c, next, d, before) && OldName(before, agent) == OldName(prior, agent) <= Recorded(next)
    && OneApplied(buildable, specs, d, agent, prior) == (r.cloud, None) && r.state.engines == before - {agent}
    && (buildable || d == c)
  }

  lemma StopsNow(buildable: bool, specs: Specs, c: Cloud, agents: seq<string>, prior: Engines, next: State)
    requires agents != [] && Between(c, prior, next.engines, agents)
    requires OneApplied(buildable, specs, c, agents[0], prior).1.None?
    ensures StopsFrom(buildable, specs, c, agents[0], prior, next.engines, c, next.engines,
                      AgentsApplied(buildable, specs, c, agents, prior, next))
  {
    assert agents[0] in agents;
    hide OneApplied;
  }

  lemma StillRecorded(c: Cloud, prior: Engines, next: Engines, todo: seq<string>, agent: string)
    requires Between(c, prior, next, todo) && agent in todo
    ensures OldName(prior, agent) <= Recorded(next)
  {}

  lemma {:induction false} FailsInTodo(
    buildable: bool, specs: Specs, c: Cloud, todo: seq<string>, prior: Engines, next: State, agent: string
  )
    requires AgentsApplied(buildable, specs, c, todo, prior, next).err == Some(AgentFailed(agent))
    ensures agent in todo
    decreases |todo|
  {
    hide OneApplied;
    var (d, made) := OneApplied(buildable, specs, c, todo[0], prior);
    if made.Some? {
      FailsInTodo(buildable, specs, d, todo[1..], prior,
                  next.(engines := next.engines[todo[0] := EngineState(made.value, false)]), agent);
    }
  }

  lemma {:induction false} StopsIn(
    buildable: bool, specs: Specs, c: Cloud, agents: seq<string>, prior: Engines, next: State, i: nat
  ) returns (d: Cloud, before: Engines)
    requires Between(c, prior, next.engines, agents) && i < |agents|
    requires AgentsApplied(buildable, specs, c, agents, prior, next).err == Some(AgentFailed(agents[i]))
    ensures StopsFrom(buildable, specs, c, agents[i], prior, next.engines, d, before,
                      AgentsApplied(buildable, specs, c, agents, prior, next))
    decreases |agents|
  {
    SortedNamesDistinct(agents);
    if OneApplied(buildable, specs, c, agents[0], prior).1.None? {
      assert i == 0;
      StopsNow(buildable, specs, c, agents, prior, next);
      return c, next.engines;
    }
    assert buildable;
    var e, mid := SettledLeads(buildable, specs, c, agents, prior, next.engines);
    var next' := next.(engines := mid);
    var r := AgentsApplied(buildable, specs, e, agents[1..], prior, next');
    assert AgentsApplied(buildable, specs, c, agents, prior, next) == r;
    FailsInTodo(buildable, specs, e, agents[1..], prior, next', agents[i]);
    hide AgentsApplied, OneApplied, Leads, Between;
    d, before := StopsIn(buildable, specs, e, agents[1..], prior, next', i - 1);
    LeadsOn(c, next.engines, e, mid, d, before);
    StillRecorded(c, prior, next.engines, agents, agents[i]);
  }

  // ---- The whole apply ----

  // If the failed step leaves these since d, and d added no orphan to those of c, the
  // same are new since c.
  lemma NewSince(c: Cloud, next: Engines, d: Cloud, before: Engines, e: Cloud, after: Engines, left: set<ResourceName>)
    requires Leads(c, next, d, before) && Orphans(e, after) - Orphans(d, before) == left
    requires forall n :: n in left ==> n in Recorded(next) || n >= c.next
    ensures Orphans(e, after) - Orphans(c, next) == left
  {
    assert forall n :: n in Orphans(c, next) ==> n !in Recorded(next) && n < c.next;
    hide Orphans, Recorded, Consistent;
  }

  ghost predicate LeavesSince(buildable: bool, c: Cloud, next: Engines, prior: Engines, agent: string, r: Applied) {
    && Orphans(r.cloud, r.state.engines) - Orphans(c, next) == LeftBy(c, r.cloud, prior, agent)
    && OldName(prior, agent) <= Recorded(next)
    && c.log <= r.cloud.log && (if buildable then |c.log| < |r.cloud.log| else r.cloud == c)
    && forall n :: n in Slipped(c, r.cloud) ==> n >= c.next
  }

  lemma LoopLeaves(
    buildable: bool, specs: Specs, c: Cloud, agents: seq<string>, prior: Engines, next: State, i: nat
  )
    requires Between(c, prior, next.engines, agents) && i < |agents|
    requires AgentsApplied(buildable, specs, c, agents, prior, next).err == Some(AgentFailed(agents[i]))
    ensures LeavesSince(buildable, c, next.engines, prior, agents[i],
                        AgentsApplied(buildable, specs, c, agents, prior, next))
  {
    var r := AgentsApplied(buildable, specs, c, agents, prior, next);
    var d, before := StopsIn(buildable, specs, c, agents, prior, next, i);
    hide AgentsApplied, Between, OneApplied, Orphans, SaneCloud;
    FailedAgentLeaves(buildable, specs, d, agents[i], prior, before);
    assert Slipped(c, r.cloud) == Slipped(d, r.cloud);
    hide Slipped, Consistent;
    NewSince(c, next.engines, d, before, r.cloud, r.state.engines, LeftBy(c, r.cloud, prior, agents[i]));
  }

  lemma StagingLeads(c: Cloud, input: EngineInput, prior: State)
    requires Consistent(c, prior.engines)
    ensures var d := Staged(c, input, prior).0;
            && Leads(c, prior.engines, d, prior.engines) && Slipped(c, d) == {}
  {
    StagedFacts(c, input, prior);
    StagingSlipsNot(c, input, prior);
    hide Staged, Slipped, Orphans, SaneCloud, Distinct, Owned;
  }

  lemma StagingSlipsNot(c: Cloud, input: EngineInput, prior: State)
    ensures Slipped(c, Staged(c, input, prior).0) == {}
  {
    hide GcsUri.SplitGcsUri, GcsUri.StagedPackUri;
  }

  // Staging before the loop changes nothing of this.
  lemma SinceStaging(c: Cloud, d: Cloud, prior: Engines, buildable: bool, agent: string, r: Applied)
    requires Leads(c, prior, d, prior) && Slipped(c, d) == {} && LeavesSince(buildable, d, prior, prior, agent, r)
    ensures Orphans(r.cloud, r.state.engines) - Orphans(c, prior) == LeftBy(c, r.cloud, prior, agent)
  {
    hide Orphans, SaneCloud;
    assert Slipped(c, r.cloud) == Slipped(d, r.cloud);
    hide Slipped, Consistent;
    NewSince(c, prior, d, prior, r.cloud, r.state.engines, LeftBy(c, r.cloud, prior, agent));
  }

  // For every oracle: what an apply leaves live and unrecorded that was not so before
  // is exactly this. Nothing, unless it stopped at an agent; and then that agent's
  // recorded engine if it is still live, and the engine of its own create if that took
  // effect and was reported as failed.
  lemma NewOrphansExactly(codec: Codec, c: Cloud, input: EngineInput, agents: seq<string>, prior: State)
    returns (stop: Stop)
    requires Consistent(c, prior.engines) && Ascending(agents)
    ensures StoppedAt(stop, codec, c, input, agents, prior, EnginesApplied(codec, c, input, agents, prior))
    ensures var r := EnginesApplied(codec, c, input, agents, prior);
            Orphans(r.cloud, r.state.engines) - Orphans(c, prior.engines)
            == if stop.AtAgent? then LeftBy(c, r.cloud, prior.engines, agents[stop.reached]) else {}
  {
    var r := EnginesApplied(codec, c, input, agents, prior);
    var slip;
    stop, slip := ApplyStops(codec, c, input, agents, prior);
    hide EnginesApplied, Consistent, Orphans, Deployed, Rewritten, SpecsOf, Evolves;
    if stop.AtAgent? {
      StopLeaves(codec, c, input, agents, prior, stop.reached);
    }
  }

  lemma StopLeaves(codec: Codec, c: Cloud, input: EngineInput, agents: seq<string>, prior: State, i: nat)
    requires Consistent(c, prior.engines) && Ascending(agents) && i < |agents| && Staged(c, input, prior).1.Ok?
    requires EnginesApplied(codec, c, input, agents, prior).err == Some(AgentFailed(agents[i]))
    ensures var r := EnginesApplied(codec, c, input, agents, prior);
            Orphans(r.cloud, r.state.engines) - Orphans(c, prior.engines)
            == LeftBy(c, r.cloud, prior.engines, agents[i])
  {
    var d, ready := Staged(c, input, prior).0, ReadyInput(c, input, prior);
    AgentErrorEndsApply(codec, c, input, agents, prior, agents[i]);
    StagingLeads(c, input, prior);
    var start := StartState(ready, prior);
    assert start.engines == prior.engines;
    hide EnginesApplied, AgentsApplied, Buildable, SpecsOf, ReadyInput, Orphans, StartState;
    EnterLoop(d, prior.engines, agents);
    hide Staged, Consistent, Between, LeftBy, LeavesSince, Leads, Slipped;
    LoopLeaves(Buildable(codec, ready), SpecsOf(codec, ready), d, agents, prior.engines, start, i);
    SinceStaging(c, d, prior.engines, Buildable(codec, ready), agents[i],
                 EnginesApplied(codec, c, input, agents, prior));
  }

  lemma EnterLoop(d: Cloud, prior: Engines, agents: seq<string>)
    requires Consistent(d, prior) && Ascending(agents)
    ensures Between(d, prior, prior, agents)
  {}
}
