/** Whole runs: any sequence of applies and dry runs, plans, destroys, out-of-band
    deletes, foreign creates and changes to the buckets, each operation reading the
    document the one before it stored. */
module Runs {
  import opened Texts
  import opened AdapterState
  import opened Inputs
  import opened EngineSpecs
  import opened ControlPlane
  import opened Apply
  import opened ApplyFacts
  import opened ApplyTheorems
  import opened Convergence
  import opened Destroy
  import DryRun
  import GcsUri
  import Plan

  // The control plane and the document the CLI keeps between operations.
  datatype World = World(cloud: Cloud, stored: Option<Document>)

  datatype Event =
    | ApplyEvent(req: Request)
    | PlanEvent(req: Request)
    | DestroyEvent(dryRun: bool, fails: Callback, forget: bool)
    | Vanish(names: set<ResourceName>)
    | Foreign(spec: EngineSpec)
    | Overwrite(objects: map<GcsUri.ObjectKey, string>)

  function EmptyWorld(fate: nat -> Fate): World {
    World(Cloud(map[], map[], 1, {}, {}, [], fate), None)
  }

  function Prior(w: World): State
    requires ParseSpec(w.stored).Ok?
  {
    ParseSpec(w.stored).value
  }

  // An apply gets as far as its loops only when its request and the stored state can
  // be read; it reaches the control plane unless it is a dry run.
  ghost predicate Reads(codec: Codec, w: World, req: Request) {
    ParseSpec(w.stored).Ok? && Gathers(codec, req)
  }

  ghost predicate Reaches(codec: Codec, w: World, req: Request) {
    Reads(codec, w, req) && !req.cfg.dryRun
  }

  ghost function ApplyOf(codec: Codec, w: World, req: Request): Applied
    requires Reads(codec, w, req)
  {
    if req.cfg.dryRun then DryRun.DryApplied(codec, w.cloud, InputOf(codec, req), AgentsOf(codec, req), Prior(w))
    else EnginesApplied(codec, w.cloud, InputOf(codec, req), AgentsOf(codec, req), Prior(w))
  }

  // What a plan asks of its request; an apply asks more, but not for a model binding.
  ghost predicate Plannable(codec: Codec, w: World, req: Request) {
    && ValidStructure(req.cfg) && ParseSpec(w.stored).Ok? && HasLlm(req.bindings)
    && codec.view(req.packJson).Some? && AgentNames(codec.view(req.packJson).value) != {}
    && ValidPackDelivery(DecidePackDelivery(req.packJson, req.cfg), req.cfg)
  }

  // Provider.Plan verifies the stored state unless it is a dry run, and stores nothing.
  ghost predicate Verifies(codec: Codec, w: World, req: Request) {
    Plannable(codec, w, req) && !req.cfg.dryRun
  }

  ghost function DestroyOf(w: World, dryRun: bool, fails: Callback): Destroyed
    requires ParseSpec(w.stored).Ok?
  {
    if dryRun then DryRun.DryDestroyed(w.cloud, Prior(w), fails) else StateDestroyed(w.cloud, Prior(w), fails)
  }

  ghost function Exec(codec: Codec, w: World, e: Event): World {
    match e
    case ApplyEvent(req) =>
      if !Reads(codec, w, req) then w
      else
        var r := ApplyOf(codec, w, req);
        World(r.cloud, Some(MarshalSpec(r.state)))
    case PlanEvent(req) =>
      if !Verifies(codec, w, req) then w else w.(cloud := Plan.StateReconciled(w.cloud, Prior(w)).cloud)
    case DestroyEvent(dryRun, fails, forget) =>
      if ParseSpec(w.stored).Err? then w
      else
        var r := DestroyOf(w, dryRun, fails);
        World(r.cloud, if forget && r.err.None? then None else w.stored)
    case Vanish(names) => w.(cloud := Vanished(w.cloud, names))
    case Foreign(spec) => w.(cloud := Joined(w.cloud, spec))
    case Overwrite(objects) => w.(cloud := w.cloud.(objects := objects))
  }

  function Vanished(c: Cloud, names: set<ResourceName>): Cloud {
    c.(engines := c.engines - names, lost := c.lost + (names * c.engines.Keys))
  }

  function Joined(c: Cloud, spec: EngineSpec): Cloud {
    c.(engines := c.engines[c.next := spec], next := c.next + 1)
  }

  ghost function Run(codec: Codec, w: World, events: seq<Event>): World {
    if events == [] then w else Exec(codec, Run(codec, w, events[..|events| - 1]), events[|events| - 1])
  }

  // The applies of a run that reached the control plane and stopped at an agent.
  ghost predicate FailsAtAgent(codec: Codec, w: World, e: Event) {
    && e.ApplyEvent? && Reaches(codec, w, e.req)
    && var err := ApplyOf(codec, w, e.req).err;
       err.Some? && err.value.AgentFailed?
  }

  ghost function Failures(codec: Codec, w: World, events: seq<Event>): nat {
    if events == [] then 0
    else
      var before := events[..|events| - 1];
      Failures(codec, w, before)
      + if FailsAtAgent(codec, Run(codec, w, before), events[|events| - 1]) then 1 else 0
  }

  // An event that may replace or drop the document of engines that still run: a dry-run
  // apply that got past staging, and a destroy that was believed although it hung up or
  // was a dry run.
  ghost predicate ForgetsEngines(codec: Codec, w: World, e: Event) {
    match e
    case ApplyEvent(req) =>
      Reads(codec, w, req) && req.cfg.dryRun && DryRun.DryStaged(InputOf(codec, req)).Ok?
    case DestroyEvent(dryRun, fails, forget) =>
      ParseSpec(w.stored).Ok? && forget && (dryRun || HangsUp(Prior(w).engines, fails))
    case _ => false
  }

  // The live engines recorded when such events struck.
  ghost function Forgotten(codec: Codec, w: World, events: seq<Event>): nat {
    if events == [] then 0
    else
      var before := events[..|events| - 1];
      Forgotten(codec, w, before) + ForgottenBy(codec, Run(codec, w, before), events[|events| - 1])
  }

  ghost function ForgottenBy(codec: Codec, w: World, e: Event): nat {
    if ForgetsEngines(codec, w, e) then |LiveRecorded(w.cloud, Prior(w).engines)| else 0
  }

  // Nothing in these events can do that: no dry-run applies, and no destroy is believed
  // that is a dry run or whose callback ever fails.
  ghost predicate Careful(events: seq<Event>) {
    forall e :: e in events
                ==> && (e.ApplyEvent? ==> !e.req.cfg.dryRun)
                    && (e.DestroyEvent? && e.forget ==> !e.dryRun && NeverFails(e.fails))
  }

  // ---- The invariant of every run ----

  // Everything the adapter ever updates or deletes is a name of its own: an engine it
  // created, or a name one of its dry runs made up, which no engine has.
  ghost predicate OwnCalls(c: Cloud) {
    forall t :: 0 <= t < |c.log| ==> Touches(c.log[t], c.created)
  }

  ghost predicate Healthy(w: World) {
    && ParseSpec(w.stored).Ok?
    && OnlyUnknown(Prior(w))
    && Consistent(w.cloud, Prior(w).engines)
    && OwnCalls(w.cloud)
  }

  ghost function Lost(w: World): set<ResourceName>
    requires ParseSpec(w.stored).Ok?
  {
    Orphans(w.cloud, Prior(w).engines)
  }

  // An engine somebody else made is as it was, unless it was lost out of band.
  ghost predicate SparesForeign(c: Cloud, d: Cloud) {
    forall n :: n in c.engines && n !in c.created
                ==> n in d.lost || (n !in d.created && n in d.engines && d.engines[n] == c.engines[n])
  }

  // Names are never handed out twice.
  ghost predicate FreshNames(c: Cloud, d: Cloud) {
    c.next <= d.next && forall n :: n in d.created && n !in c.created ==> n >= c.next
  }

  ghost predicate Advances(w: World, v: World, extra: nat) {
    && Healthy(w) && Healthy(v)
    && |Lost(v)| <= |Lost(w)| + extra
    && SparesForeign(w.cloud, v.cloud) && w.cloud.lost <= v.cloud.lost && FreshNames(w.cloud, v.cloud)
  }

  lemma AdvancesTransitive(w: World, u: World, v: World, first: nat, then': nat)
    requires Advances(w, u, first) && Advances(u, v, then')
    ensures Advances(w, v, first + then')
  {}

  lemma SmallerSet<T>(a: set<T>, b: set<T>)
    requires a <= b
    ensures |a| <= |b|
  {
    assert a + (b - a) == b;
  }

  lemma EvolvingIsOwn(c: Cloud, d: Cloud, mine: set<ResourceName>)
    requires SaneCloud(c) && OwnCalls(c) && Evolves(c, d, mine) && mine <= c.created
    ensures OwnCalls(d) && SparesForeign(c, d) && FreshNames(c, d)
  {}

  lemma RecordedOwned(c: Cloud, engines: Engines)
    requires Owned(c, engines)
    ensures Recorded(engines) <= c.created
  {}

  // The stored document reads back as the state that was returned.
  lemma StoredReadsBack(codec: Codec, c: Cloud, input: EngineInput, agents: seq<string>, prior: State)
    requires OnlyUnknown(prior) && prior.version <= STATE_VERSION
    requires Consistent(c, prior.engines) && Ascending(agents)
    ensures var s := EnginesApplied(codec, c, input, agents, prior).state;
            OnlyUnknown(s) && ParseSpec(Some(MarshalSpec(s))) == Ok(s)
  {
    var stop, slip := ApplyStops(codec, c, input, agents, prior);
    var s := EnginesApplied(codec, c, input, agents, prior).state;
    hide SpecsOf, Keeps, EnginesApplied, Deployed, Rewritten, Consistent, MarshalSpec, ParseSpec;
    ParseInvertsMarshal(s);
  }

  lemma ApplyKeeps(codec: Codec, c: Cloud, input: EngineInput, agents: seq<string>, prior: State)
    returns (extra: set<ResourceName>)
    requires Consistent(c, prior.engines) && Ascending(agents)
    ensures var r := EnginesApplied(codec, c, input, agents, prior);
            && Keeps(c, prior.engines, r, extra)
            && |extra| <= (if r.err.Some? && r.err.value.AgentFailed? then 1 else 0)
  {
    var stop, slip := ApplyStops(codec, c, input, agents, prior);
    extra := if stop.AtAgent? then {slip} else {};
    hide SpecsOf, Keeps, EnginesApplied, Deployed, Rewritten, Consistent;
  }

  lemma ApplyAdvances(codec: Codec, w: World, req: Request)
    requires Healthy(w) && Reaches(codec, w, req)
    ensures var e := ApplyEvent(req);
            Advances(w, Exec(codec, w, e), if FailsAtAgent(codec, w, e) then 1 else 0)
    ensures Prior(Exec(codec, w, ApplyEvent(req))) == ApplyOf(codec, w, req).state
  {
    var prior, input, agents := Prior(w), InputOf(codec, req), AgentsOf(codec, req);
    hide EnginesApplied, MarshalSpec, SaneCloud;
    var extra := ApplyKeeps(codec, w.cloud, input, agents, prior);
    StoredReadsBack(codec, w.cloud, input, agents, prior);
    hide ParseSpec, Gathers, InputOf, AgentsOf, Distinct;
    var r := EnginesApplied(codec, w.cloud, input, agents, prior);
    RecordedOwned(w.cloud, prior.engines);
    EvolvingIsOwn(w.cloud, r.cloud, Recorded(prior.engines));
    SmallerSet(Orphans(r.cloud, r.state.engines), Lost(w) + extra);
  }

  lemma DryRunReadsBack(codec: Codec, c: Cloud, input: EngineInput, agents: seq<string>, prior: State)
    requires OnlyUnknown(prior) && prior.version <= STATE_VERSION
    requires Consistent(c, prior.engines) && Ascending(agents) && agents != []
    ensures var s := DryRun.DryApplied(codec, c, input, agents, prior).state;
            OnlyUnknown(s) && ParseSpec(Some(MarshalSpec(s))) == Ok(s)
  {
    assert DryRun.Past(c.next, prior.engines);
    DryRun.DryRunOutcome(codec, c, input, agents, prior);
    var s := DryRun.DryApplied(codec, c, input, agents, prior).state;
    hide DryRun.DryApplied, DryRun.DryStaged, Consistent, MarshalSpec, ParseSpec, Buildable, DryRun.MadeUp, WithUri;
    ParseInvertsMarshal(s);
  }

  lemma DryRunAdvances(codec: Codec, w: World, req: Request)
    requires Healthy(w) && Reads(codec, w, req) && req.cfg.dryRun
    ensures Advances(w, Exec(codec, w, ApplyEvent(req)), ForgottenBy(codec, w, ApplyEvent(req)))
    ensures Prior(Exec(codec, w, ApplyEvent(req))) == ApplyOf(codec, w, req).state
  {
    assert Prior(w).version <= STATE_VERSION;
    hide DryRun.DryApplied, DryRun.DryStaged, DryRun.Dropped, MarshalSpec, ParseSpec, Orphans, Gathers, InputOf,
         LiveRecorded;
    var prior, input, agents := Prior(w), InputOf(codec, req), AgentsOf(codec, req);
    DryRunReadsBack(codec, w.cloud, input, agents, prior);
    DryRun.DryRunLetsGo(codec, w.cloud, input, agents, prior);
    DryRunSetsAside(codec, w.cloud, input, agents, prior);
    DryRunForgets(codec, w, req);
    hide Consistent, OnlyUnknown, AgentsOf, ForgottenBy;
    var r := DryRun.DryApplied(codec, w.cloud, input, agents, prior);
    var v := Exec(codec, w, ApplyEvent(req));
    assert v == World(r.cloud, Some(MarshalSpec(r.state)));
    SmallerSet(Lost(v), Lost(w) + DryRun.Dropped(w.cloud, prior.engines, agents, r));
  }

  lemma DryRunForgets(codec: Codec, w: World, req: Request)
    requires Healthy(w) && Reads(codec, w, req) && req.cfg.dryRun
    ensures |DryRun.Dropped(w.cloud, Prior(w).engines, AgentsOf(codec, req), ApplyOf(codec, w, req))|
            <= ForgottenBy(codec, w, ApplyEvent(req))
  {
    hide DryRun.DryApplied, DryRun.Dropped, ParseSpec, LiveRecorded;
    var prior, input, agents := Prior(w), InputOf(codec, req), AgentsOf(codec, req);
    DryRunSetsAside(codec, w.cloud, input, agents, prior);
    var r := DryRun.DryApplied(codec, w.cloud, input, agents, prior);
    DroppedIsForgotten(w.cloud, prior.engines, agents, r);
    hide DryRun.DryStaged, Healthy, InputOf, AgentsOf;
    SmallerSet(DryRun.Dropped(w.cloud, prior.engines, agents, r), LiveRecorded(w.cloud, prior.engines));
  }

  lemma DroppedIsForgotten(c: Cloud, prior: Engines, agents: seq<string>, r: Applied)
    requires agents != []
    ensures DryRun.Dropped(c, prior, agents, r) <= LiveRecorded(c, prior)
    ensures r.err == Some(NoStagingBucket) ==> DryRun.Dropped(c, prior, agents, r) == {}
  {}

  // A dry run only spends names.
  lemma DryRunSetsAside(codec: Codec, c: Cloud, input: EngineInput, agents: seq<string>, prior: State)
    requires OwnCalls(c) && SaneCloud(c)
    ensures var d := DryRun.DryApplied(codec, c, input, agents, prior).cloud;
            && OwnCalls(d) && SparesForeign(c, d) && c.lost <= d.lost && FreshNames(c, d)
            && (DryRun.DryStaged(input).Err?
                ==> DryRun.DryApplied(codec, c, input, agents, prior).err == Some(NoStagingBucket))
  {
    hide DryRun.ScratchApplied;
  }

  // ---- Plans, destroys and outside events ----

  lemma {:induction false} ProbesOnlyLook(c: Cloud, refs: seq<string>, engines: Engines)
    requires SaneCloud(c) && forall n :: n in refs ==> n in engines
    ensures var d := Plan.ProbeAll(c, refs, engines).cloud;
            SaneCloud(d) && Evolves(c, d, {}) && d.created == c.created && d.engines.Keys <= c.engines.Keys
    decreases |refs|
  {
    if refs != [] {
      assert forall n :: n in refs[1..] ==> n in refs;
      var d := Getting(c, engines[refs[0]].name).0;
      assert SaneCloud(d) && Evolves(c, d, {});
      ProbesOnlyLook(d, refs[1..], engines);
      EvolvesTransitive(c, d, Plan.ProbeAll(d, refs[1..], engines).cloud, {});
    }
  }

  lemma FewerEngines(c: Cloud, d: Cloud, engines: Engines, few: Engines)
    requires Consistent(c, engines) && SaneCloud(d) && c.created <= d.created
    requires d.engines.Keys <= c.engines.Keys && d.created <= c.created
    requires few == engines || few == map[]
    ensures Consistent(d, few)
    ensures few == engines ==> Orphans(d, few) <= Orphans(c, engines)
  {}

  lemma PlanAdvances(codec: Codec, w: World, req: Request)
    requires Healthy(w) && Verifies(codec, w, req)
    ensures Advances(w, Exec(codec, w, PlanEvent(req)), 0)
  {
    var engines := Prior(w).engines;
    var d := Plan.StateReconciled(w.cloud, Prior(w)).cloud;
    ProbesOnlyLook(w.cloud, SortedNames(Plan.SettledNames(engines)), engines);
    FewerEngines(w.cloud, d, engines, engines);
    hide SaneCloud;
    EvolvingIsOwn(w.cloud, d, {});
    SmallerSet(Orphans(d, engines), Lost(w));
  }

  lemma DestroyOfEffect(w: World, dryRun: bool, fails: Callback)
    requires Healthy(w)
    ensures var r, engines := DestroyOf(w, dryRun, fails), Prior(w).engines;
            && SaneCloud(r.cloud) && Evolves(w.cloud, r.cloud, Recorded(engines))
            && r.cloud.created == w.cloud.created && r.cloud.engines.Keys <= w.cloud.engines.Keys
            && (r.err.None? && !dryRun && !HangsUp(engines, fails) ==> LiveRecorded(r.cloud, engines) == {})
  {
    DestroyEffect(w.cloud, Prior(w), fails);
    hide StateDestroyed, HangsUp, ParseSpec, OwnCalls;
  }

  lemma DestroyAdvances(codec: Codec, w: World, e: Event)
    requires Healthy(w) && e.DestroyEvent?
    ensures Advances(w, Exec(codec, w, e), ForgottenBy(codec, w, e))
  {
    var r := DestroyOf(w, e.dryRun, e.fails);
    DestroyOfEffect(w, e.dryRun, e.fails);
    var v := Exec(codec, w, e);
    hide DestroyOf;
    RecordedOwned(w.cloud, Prior(w).engines);
    EvolvingIsOwn(w.cloud, r.cloud, Recorded(Prior(w).engines));
    FewerEngines(w.cloud, r.cloud, Prior(w).engines, Prior(v).engines);
    assert OnlyUnknown(Prior(v));
    hide SaneCloud, ParseSpec, HangsUp, OwnCalls, Evolves;
    LostAfterDestroy(w, v, e.forget && r.err.None?, r);
  }

  lemma LostAfterDestroy(w: World, v: World, forgotten: bool, r: Destroyed)
    requires ParseSpec(w.stored).Ok? && ParseSpec(v.stored).Ok? && v.cloud == r.cloud
    requires r.cloud.engines.Keys <= w.cloud.engines.Keys && r.cloud.created == w.cloud.created
    requires Prior(v).engines == if forgotten then map[] else Prior(w).engines
    ensures forgotten && LiveRecorded(r.cloud, Prior(w).engines) != {}
            ==> |Lost(v)| <= |Lost(w)| + |LiveRecorded(w.cloud, Prior(w).engines)|
    ensures !forgotten || LiveRecorded(r.cloud, Prior(w).engines) == {} ==> |Lost(v)| <= |Lost(w)|
  {
    hide ParseSpec;
    var live := LiveRecorded(w.cloud, Prior(w).engines);
    assert forall n :: n in LiveRecorded(r.cloud, Prior(w).engines)
                       <==> n in Recorded(Prior(w).engines) && n in r.cloud.engines;
    if forgotten && LiveRecorded(r.cloud, Prior(w).engines) != {} {
      assert Lost(v) <= Lost(w) + live;
      SmallerSet(Lost(v), Lost(w) + live);
    } else {
      assert Lost(v) <= Lost(w);
      SmallerSet(Lost(v), Lost(w));
    }
  }

  lemma VanishAdvances(codec: Codec, w: World, names: set<ResourceName>)
    requires Healthy(w)
    ensures Advances(w, Exec(codec, w, Vanish(names)), 0)
  {
    var v := Exec(codec, w, Vanish(names));
    hide ParseSpec, OnlyUnknown;
    assert Lost(v) <= Lost(w);
    SmallerSet(Lost(v), Lost(w));
  }

  lemma ForeignAdvances(codec: Codec, w: World, spec: EngineSpec)
    requires Healthy(w)
    ensures Advances(w, Exec(codec, w, Foreign(spec)), 0)
  {
    var v := Exec(codec, w, Foreign(spec));
    hide ParseSpec, OnlyUnknown;
    assert Lost(v) <= Lost(w);
    SmallerSet(Lost(v), Lost(w));
  }

  lemma OverwriteAdvances(codec: Codec, w: World, objects: map<GcsUri.ObjectKey, string>)
    requires Healthy(w)
    ensures Advances(w, Exec(codec, w, Overwrite(objects)), 0)
  {
    hide ParseSpec, OnlyUnknown;
    assert Lost(Exec(codec, w, Overwrite(objects))) == Lost(w);
  }

  // What one event may cost.
  ghost function Cost(codec: Codec, w: World, e: Event): nat {
    (if FailsAtAgent(codec, w, e) then 1 else 0) + ForgottenBy(codec, w, e)
  }

  lemma ExecAdvances(codec: Codec, w: World, e: Event)
    requires Healthy(w)
    ensures Advances(w, Exec(codec, w, e), Cost(codec, w, e))
  {
    match e
    case ApplyEvent(req) =>
      if Reaches(codec, w, req) {
        ApplyAdvances(codec, w, req);
      } else if Reads(codec, w, req) {
        DryRunAdvances(codec, w, req);
      }
      hide Healthy, ApplyOf, Lost, LiveRecorded;
    case PlanEvent(req) =>
      if Verifies(codec, w, req) {
        PlanAdvances(codec, w, req);
      }
    case DestroyEvent(_, _, _) => DestroyAdvances(codec, w, e);
    case Vanish(names) => VanishAdvances(codec, w, names);
    case Foreign(spec) => ForeignAdvances(codec, w, spec);
    case Overwrite(objects) => OverwriteAdvances(codec, w, objects);
  }

  // ---- Over whole runs ----

  // Whatever these events are, in whatever order: agents record distinct names of the
  // adapter's own; nothing else is ever updated or deleted; and the live engines it
  // created but no longer records never outnumber the applies that failed at an agent
  // and the engines that dry runs and believed hang-ups let go of.
  lemma {:induction false} RunsStayHealthy(codec: Codec, w: World, events: seq<Event>)
    requires Healthy(w)
    ensures Advances(w, Run(codec, w, events), Failures(codec, w, events) + Forgotten(codec, w, events))
    decreases |events|
  {
    hide Healthy, Orphans, SparesForeign, Exec, Cost;
    if events == [] {
      StaysPut(w);
    } else {
      var before, last := events[..|events| - 1], events[|events| - 1];
      var u := Run(codec, w, before);
      RunsStayHealthy(codec, w, before);
      ExecAdvances(codec, u, last);
      CostsAdd(codec, w, events);
      assert Run(codec, w, events) == Exec(codec, u, last);
      hide Failures, Forgotten, Run;
      AdvancesTransitive(w, u, Exec(codec, u, last), Failures(codec, w, before) + Forgotten(codec, w, before),
                         Cost(codec, u, last));
    }
  }

  lemma StaysPut(w: World)
    requires Healthy(w)
    ensures Advances(w, w, 0)
  {}

  lemma CostsAdd(codec: Codec, w: World, events: seq<Event>)
    requires events != []
    ensures var before, last := events[..|events| - 1], events[|events| - 1];
            Failures(codec, w, events) + Forgotten(codec, w, events)
            == Failures(codec, w, before) + Forgotten(codec, w, before) + Cost(codec, Run(codec, w, before), last)
  {
    hide FailsAtAgent, ForgottenBy, Run;
  }

  lemma {:induction false} CarefulForgetsNothing(codec: Codec, w: World, events: seq<Event>)
    requires Careful(events)
    ensures Forgotten(codec, w, events) == 0
    decreases |events|
  {
    if events != [] {
      var before, last := events[..|events| - 1], events[|events| - 1];
      assert last in events && forall e :: e in before ==> e in events;
      CarefulForgetsNothing(codec, w, before);
      hide Run, Reads;
    }
  }

  lemma OrphansBounded(codec: Codec, fate: nat -> Fate, events: seq<Event>)
    ensures var start := EmptyWorld(fate);
            var w := Run(codec, start, events);
            && Healthy(w)
            && |Lost(w)| <= Failures(codec, start, events) + Forgotten(codec, start, events)
            && (Careful(events) ==> |Lost(w)| <= Failures(codec, start, events))
            && (Careful(events) && Failures(codec, start, events) == 0 ==> Lost(w) == {})
  {
    var start := EmptyWorld(fate);
    EmptyIsHealthy(fate);
    hide Run, Healthy, Orphans, SparesForeign, FreshNames, Failures, Forgotten, Careful, EmptyWorld;
    RunsStayHealthy(codec, start, events);
    if Careful(events) {
      CarefulForgetsNothing(codec, start, events);
    }
  }

  lemma EmptyIsHealthy(fate: nat -> Fate)
    ensures Healthy(EmptyWorld(fate)) && Lost(EmptyWorld(fate)) == {}
  {}

  lemma RunSplits(codec: Codec, w: World, first: seq<Event>, then': seq<Event>)
    ensures Run(codec, w, first + then') == Run(codec, Run(codec, w, first), then')
    decreases |then'|
  {
    var all := first + then';
    if then' == [] {
      assert all == first;
    } else {
      assert all[..|all| - 1] == first + then'[..|then'| - 1];
      RunSplits(codec, w, first, then'[..|then'| - 1]);
    }
  }

  // Some call updated or deleted this engine.
  ghost predicate Addressed(log: seq<Call>, name: ResourceName) {
    exists t :: 0 <= t < |log| && (log[t] == Delete(name) || (log[t].Update? && log[t].name == name))
  }

  // An engine somebody else made, at any moment of a run, is never touched after it.
  lemma ForeignEnginesSpared(codec: Codec, fate: nat -> Fate, first: seq<Event>, then': seq<Event>, name: ResourceName)
    ensures var w := Run(codec, EmptyWorld(fate), first);
            var v := Run(codec, EmptyWorld(fate), first + then');
            name in w.cloud.engines && name !in w.cloud.created
            ==> && (name in v.cloud.lost || (name in v.cloud.engines && v.cloud.engines[name] == w.cloud.engines[name]))
                && !Addressed(v.cloud.log, name)
  {
    hide Run, Healthy, Advances, Failures, Forgotten, Careful, Lost, EmptyWorld, Addressed;
    OrphansBounded(codec, fate, first);
    RunSplits(codec, EmptyWorld(fate), first, then');
    var w := Run(codec, EmptyWorld(fate), first);
    RunsStayHealthy(codec, w, then');
    if name in w.cloud.engines && name !in w.cloud.created {
      StaysForeign(w, Run(codec, w, then'), Failures(codec, w, then') + Forgotten(codec, w, then'), name);
    }
  }

  lemma StaysForeign(w: World, v: World, extra: nat, name: ResourceName)
    requires Advances(w, v, extra) && name in w.cloud.engines && name !in w.cloud.created
    ensures name in v.cloud.lost || (name in v.cloud.engines && v.cloud.engines[name] == w.cloud.engines[name])
    ensures !Addressed(v.cloud.log, name)
  {
    hide ParseSpec, OnlyUnknown, Lost;
    assert name !in v.cloud.created;
  }

  // From any reachable world, once faults stop: an apply succeeds exactly when its
  // pack can be staged and its spec built; it leaves exactly the pack's agents
  // recorded, each engine live and running its spec; and repeating it is quiet.
  lemma RunsConverge(codec: Codec, fate: nat -> Fate, events: seq<Event>, req: Request)
    requires var w := Run(codec, EmptyWorld(fate), events); Calm(w.cloud) && Reaches(codec, w, req)
    ensures var w := Run(codec, EmptyWorld(fate), events);
            var v := Run(codec, EmptyWorld(fate), events + [ApplyEvent(req)]);
            var u := Run(codec, EmptyWorld(fate), events + [ApplyEvent(req), ApplyEvent(req)]);
            ConvergesFrom(codec, w, v, u, req)
  {
    var start := EmptyWorld(fate);
    OrphansBounded(codec, fate, events);
    assert events + [ApplyEvent(req)] + [ApplyEvent(req)] == events + [ApplyEvent(req), ApplyEvent(req)];
    OneMore(codec, start, events, ApplyEvent(req));
    OneMore(codec, start, events + [ApplyEvent(req)], ApplyEvent(req));
    var w := Run(codec, start, events);
    hide Healthy, EnginesApplied, Calm, Run;
    ConvergeOnce(codec, w, req);
  }

  ghost predicate ConvergesFrom(codec: Codec, w: World, v: World, u: World, req: Request)
    requires Reaches(codec, w, req)
  {
    var input, agents := InputOf(codec, req), AgentsOf(codec, req);
    var r := ApplyOf(codec, w, req);
    && (r.err.None? <==> Stageable(input, Prior(w)) && Buildable(codec, WithUri(input)))
    && (r.err.None?
        ==> && Healthy(v) && Converged(codec, v.cloud, WithUri(input), agents, Prior(v))
            && u.stored == v.stored
            && var calls := UpdateCalls(SpecsOf(codec, WithUri(input)), agents, Prior(v).engines);
               u.cloud == v.cloud.(log := v.cloud.log + calls))
  }

  lemma ConvergeOnce(codec: Codec, w: World, req: Request)
    requires Healthy(w) && Calm(w.cloud) && Reaches(codec, w, req)
    ensures var v := Exec(codec, w, ApplyEvent(req));
            var u := Exec(codec, v, ApplyEvent(req));
            ConvergesFrom(codec, w, v, u, req)
  {
    var input, agents := InputOf(codec, req), AgentsOf(codec, req);
    hide EnginesApplied, MarshalSpec, ParseSpec, Converged, Buildable, SpecsOf, Stageable, Exec, SaneCloud, Gathers,
         AgentsOf, InputOf, Staged, WithUri, ReadyInput, Calm;
    ApplyConverges(codec, w.cloud, input, agents, Prior(w));
    CalmStaging(w.cloud, input, Prior(w));
    if Staged(w.cloud, input, Prior(w)).1.Ok? {
      ReadyHasUri(w.cloud, input, Prior(w));
    }
    if ApplyOf(codec, w, req).err.None? {
      QuietAgain(codec, w, req);
    }
  }

  lemma QuietAgain(codec: Codec, w: World, req: Request)
    requires Healthy(w) && Calm(w.cloud) && Reaches(codec, w, req) && ApplyOf(codec, w, req).err.None?
    ensures var v := Exec(codec, w, ApplyEvent(req));
            var u := Exec(codec, v, ApplyEvent(req));
            var agents, specs := AgentsOf(codec, req), SpecsOf(codec, WithUri(InputOf(codec, req)));
            && Healthy(v) && Prior(v) == ApplyOf(codec, w, req).state
            && (forall a :: a in agents ==> a in Prior(v).engines)
            && v.cloud == ApplyOf(codec, w, req).cloud
            && u.stored == v.stored
            && u.cloud == v.cloud.(log := v.cloud.log + UpdateCalls(specs, agents, Prior(v).engines))
  {
    ApplyAdvances(codec, w, req);
    var v := Exec(codec, w, ApplyEvent(req));
    assert Reaches(codec, v, req);
    assert v == World(ApplyOf(codec, w, req).cloud, Some(MarshalSpec(Prior(v))));
    var input, agents := InputOf(codec, req), AgentsOf(codec, req);
    SecondApplyIsQuiet(codec, w.cloud, input, agents, Prior(w));
    assert Staged(w.cloud, input, Prior(w)).1.Ok? by {
      hide Healthy, SpecsOf, Buildable, Consistent, MarshalSpec, ParseSpec, AgentsApplied;
    }
    ReadyHasUri(w.cloud, input, Prior(w));
    hide EnginesApplied, MarshalSpec, ParseSpec, Healthy, Calm, SpecsOf, Staged, ReadyInput, WithUri, Gathers,
        AgentsOf, InputOf;
  }

  lemma OneMore(codec: Codec, w: World, events: seq<Event>, e: Event)
    ensures Run(codec, w, events + [e]) == Exec(codec, Run(codec, w, events), e)
  {}

  lemma RunOne(codec: Codec, w: World, e: Event)
    ensures Run(codec, w, [e]) == Exec(codec, w, e)
  {
    hide Exec;
    assert [] + [e] == [e];
    OneMore(codec, w, [], e);
  }

  lemma RunTwo(codec: Codec, w: World, e: Event, f: Event)
    ensures Run(codec, w, [e, f]) == Exec(codec, Exec(codec, w, e), f)
  {
    hide Exec;
    RunOne(codec, w, e);
    assert [e] + [f] == [e, f];
    OneMore(codec, w, [e], f);
  }

  // ---- The bound is reached ----

  // An update that fails on a live engine strikes its record.
  lemma FailedUpdateOrphans(specs: Specs, c: Cloud, agent: string, prior: Engines)
    requires Consistent(c, prior) && agent in prior && prior[agent].name in c.engines
    requires !c.fate(|c.log|).outcome.Fine? && prior[agent].name !in c.fate(|c.log|).vanish
    ensures var (d, made) := OneApplied(true, specs, c, agent, prior);
            made.None? && prior[agent].name in Orphans(d, prior - {agent})
  {}

  // Every call takes effect and is reported as failed.
  ghost predicate FailsLate(fate: nat -> Fate) {
    forall t: nat :: fate(t) == Fate({}, FailLate)
  }

  // A request for one agent, inline and buildable.
  ghost predicate OneAgent(codec: Codec, req: Request) {
    && Gathers(codec, req) && !req.cfg.dryRun && |AgentsOf(codec, req)| == 1
    && DecidePackDelivery(req.packJson, req.cfg).inlined && Buildable(codec, WithUri(InputOf(codec, req)))
  }

  // n engines live, all of them the adapter's, none of them recorded.
  ghost predicate Spilled(w: World, n: nat) {
    && Healthy(w) && Prior(w).engines == map[]
    && FailsLate(w.cloud.fate) && w.cloud.engines.Keys == w.cloud.created && |w.cloud.created| == n
  }

  lemma SpilledLost(w: World, n: nat)
    requires Spilled(w, n)
    ensures |Lost(w)| == n
  {
    hide ParseSpec, OnlyUnknown;
    assert Lost(w) == w.cloud.created;
  }

  // The agent's create took effect, was reported as failed, and nothing is recorded.
  ghost predicate Spills(c: Cloud, agent: string, r: Applied) {
    && r.err == Some(AgentFailed(agent)) && r.state.engines == map[]
    && r.cloud.fate == c.fate && r.cloud.created == c.created + {c.next}
    && r.cloud.engines.Keys == c.engines.Keys + {c.next}
  }

  lemma LateCreate(specs: Specs, c: Cloud, agent: string, prior: Engines, next: State)
    requires FailsLate(c.fate) && agent !in prior && next.engines == map[]
    ensures Spills(c, agent, AgentsApplied(true, specs, c, [agent], prior, next))
  {
    assert c.fate(|c.log|) == Fate({}, FailLate) && c.engines - {} == c.engines;
    assert PutEngine(c, specs(agent), agent, prior) == (Creating(c, specs(agent)).0, None);
  }

  lemma CreateFailsLate(codec: Codec, c: Cloud, input: EngineInput, agent: string, prior: State)
    requires input.delivery.inlined && Buildable(codec, WithUri(input)) && prior.engines == map[]
    requires FailsLate(c.fate)
    ensures Spills(c, agent, EnginesApplied(codec, c, input, [agent], prior))
  {
    var ready := WithUri(input);
    assert Staged(c, input, prior) == (c, Ok(""));
    hide Buildable, SpecsOf, EnginesApplied, RemovedDeleted, FailsLate, Staged, WithUri;
    var mid := AppliedInParts(codec, c, input, [agent], prior);
    LateCreate(SpecsOf(codec, ready), c, agent, prior.engines, StartState(ready, prior));
    hide AgentsApplied;
  }

  lemma SpillAdds(w: World, v: World, agent: string, r: Applied, n: nat)
    requires Spilled(w, n) && Spills(w.cloud, agent, r)
    requires Healthy(v) && v.cloud == r.cloud && Prior(v) == r.state
    ensures Spilled(v, n + 1)
  {
    assert w.cloud.next !in w.cloud.created;
    hide ParseSpec, OnlyUnknown, Consistent, OwnCalls;
  }

  lemma ApplyLeaves(codec: Codec, w: World, req: Request)
    requires Healthy(w) && Reaches(codec, w, req)
    ensures var v, r := Exec(codec, w, ApplyEvent(req)), ApplyOf(codec, w, req);
            Healthy(v) && v.cloud == r.cloud && Prior(v) == r.state
  {
    ApplyAdvances(codec, w, req);
    hide ApplyOf, Healthy, ParseSpec, MarshalSpec, Gathers, FailsAtAgent, Lost, SparesForeign, FreshNames;
  }

  lemma ApplySpills(codec: Codec, w: World, req: Request, n: nat)
    requires OneAgent(codec, req) && Spilled(w, n)
    ensures Reads(codec, w, req) && Spills(w.cloud, AgentsOf(codec, req)[0], ApplyOf(codec, w, req))
  {
    hide Spills, Buildable, EnginesApplied, FailsLate, OnlyUnknown, Consistent, OwnCalls, ParseSpec;
    var agents := AgentsOf(codec, req);
    assert agents == [agents[0]];
    CreateFailsLate(codec, w.cloud, InputOf(codec, req), agents[0], Prior(w));
  }

  lemma OneMoreSpill(codec: Codec, w: World, req: Request, n: nat)
    requires OneAgent(codec, req) && Spilled(w, n)
    ensures FailsAtAgent(codec, w, ApplyEvent(req))
    ensures Spilled(Exec(codec, w, ApplyEvent(req)), n + 1)
  {
    hide Buildable, Gathers, ApplyOf, Exec, FailsLate, ParseSpec, OnlyUnknown, Consistent, OwnCalls;
    ApplySpills(codec, w, req, n);
    ApplyLeaves(codec, w, req);
    SpillAdds(w, Exec(codec, w, ApplyEvent(req)), AgentsOf(codec, req)[0], ApplyOf(codec, w, req), n);
    hide Spilled, AgentsOf;
  }

  // These applies all failed, n of them, nothing else cost anything, and n live engines
  // are left unrecorded.
  ghost predicate Reached(codec: Codec, start: World, events: seq<Event>, n: nat) {
    && Failures(codec, start, events) == n && Forgotten(codec, start, events) == 0
    && Spilled(Run(codec, start, events), n)
  }

  lemma CountsOneMore(codec: Codec, start: World, before: seq<Event>, last: Event)
    requires FailsAtAgent(codec, Run(codec, start, before), last)
    requires last.ApplyEvent? && !last.req.cfg.dryRun
    ensures Failures(codec, start, before + [last]) == Failures(codec, start, before) + 1
    ensures Forgotten(codec, start, before + [last]) == Forgotten(codec, start, before)
  {
    hide FailsAtAgent, Run;
    assert (before + [last])[..|before + [last]| - 1] == before;
  }

  lemma ReachedOneMore(codec: Codec, start: World, before: seq<Event>, req: Request, n: nat)
    requires OneAgent(codec, req) && Reached(codec, start, before, n)
    ensures Reached(codec, start, before + [ApplyEvent(req)], n + 1)
  {
    assert !req.cfg.dryRun;
    hide OneAgent, Spilled, FailsAtAgent, Exec, Failures, Forgotten, Run;
    var u := Run(codec, start, before);
    OneMoreSpill(codec, u, req, n);
    CountsOneMore(codec, start, before, ApplyEvent(req));
    OneMore(codec, start, before, ApplyEvent(req));
  }

  lemma NothingSpilled(codec: Codec, fate: nat -> Fate)
    requires FailsLate(fate)
    ensures Reached(codec, EmptyWorld(fate), [], 0)
  {
    EmptyIsHealthy(fate);
  }

  function Times(e: Event, n: nat): seq<Event> {
    if n == 0 then [] else Times(e, n - 1) + [e]
  }

  lemma {:induction false} BoundRun(codec: Codec, start: World, req: Request, n: nat)
    requires OneAgent(codec, req) && Reached(codec, start, [], 0)
    ensures Reached(codec, start, Times(ApplyEvent(req), n), n)
  {
    hide OneAgent, Reached;
    if n > 0 {
      BoundRun(codec, start, req, n - 1);
      ReachedOneMore(codec, start, Times(ApplyEvent(req), n - 1), req, n - 1);
    }
  }

  lemma {:induction false} TimesCareful(req: Request, n: nat)
    requires !req.cfg.dryRun
    ensures Careful(Times(ApplyEvent(req), n))
  {
    if n > 0 {
      TimesCareful(req, n - 1);
    }
  }

  // The bound is met exactly: n times an apply whose create takes effect and is
  // reported as failed leave n live engines unrecorded.
  lemma BoundIsReached(codec: Codec, fate: nat -> Fate, req: Request, n: nat)
    requires OneAgent(codec, req) && FailsLate(fate)
    ensures var start, events := EmptyWorld(fate), Times(ApplyEvent(req), n);
            && Careful(events) && Failures(codec, start, events) == n
            && Healthy(Run(codec, start, events)) && |Lost(Run(codec, start, events))| == n
  {
    TimesCareful(req, n);
    hide OneAgent, FailsLate, EmptyWorld, Careful, Healthy, Lost, Run, Failures, Forgotten, Times;
    NothingSpilled(codec, fate);
    BoundRun(codec, EmptyWorld(fate), req, n);
    SpilledLost(Run(codec, EmptyWorld(fate), Times(ApplyEvent(req), n)), n);
  }
}
