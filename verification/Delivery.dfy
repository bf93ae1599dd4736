/** Pack delivery end to end over whole runs: whatever engine a run leaves live, a
    container started from it obtains exactly the pack of the apply that built it, unless
    a dry run's document made staging skip an upload that never happened. */
module Delivery {
  import opened Texts
  import opened AdapterState
  import opened Inputs
  import opened EngineSpecs
  import opened ControlPlane
  import opened Apply
  import opened ApplyFacts
  import opened ApplyTheorems
  import opened Convergence
  import opened Runtime
  import opened Runs
  import Destroy
  import DryRun
  import GcsUri
  import Plan

  // ---- Staged objects ----

  ghost predicate HasObject(objects: Objects, uri: string, data: string) {
    && GcsUri.SplitGcsUri(uri).Ok?
    && GcsUri.SplitGcsUri(uri).value in objects
    && objects[GcsUri.SplitGcsUri(uri).value] == data
  }

  // uri is where some bucket keeps pack p, a pack of the run.
  ghost predicate StagedFor(codec: Codec, packs: set<string>, uri: string, p: string) {
    p in packs && uri != "" && exists b :: uri == GcsUri.StagedPackUri(b, codec.hash(p))
  }

  // A staged URI addresses one pack only.
  lemma OnePackPerUri(codec: Codec, packs: set<string>, uri: string, p: string, q: string)
    requires WellBehaved(codec) && Separates(codec, packs)
    requires StagedFor(codec, packs, uri, p) && StagedFor(codec, packs, uri, q)
    ensures p == q
  {
    var b :| uri == GcsUri.StagedPackUri(b, codec.hash(p));
    var b' :| uri == GcsUri.StagedPackUri(b', codec.hash(q));
    hide GcsUri.StagedPackUri;
    GcsUri.StagedPackUriInjective(b, codec.hash(p), b', codec.hash(q));
  }

  // Staging one pack never overwrites another with different bytes.
  lemma StagingKeepsObjects(codec: Codec, packs: set<string>, objects: Objects, uri: string, p: string, uri': string,
      q: string)
    requires WellBehaved(codec) && Separates(codec, packs)
    requires StagedFor(codec, packs, uri, p) && StagedFor(codec, packs, uri', q)
    requires HasObject(objects, uri, p) && GcsUri.SplitGcsUri(uri').Ok?
    ensures HasObject(objects[GcsUri.SplitGcsUri(uri').value := q], uri, p)
  {
    hide StagedFor, GcsUri.SplitGcsUri;
    if GcsUri.SplitGcsUri(uri) == GcsUri.SplitGcsUri(uri') {
      GcsUri.SplitInjective(uri, uri');
      OnePackPerUri(codec, packs, uri, p, q);
    }
  }

  // No object of a pack of the run is lost or changed.
  ghost predicate KeepsPacks(codec: Codec, packs: set<string>, before: Objects, after: Objects) {
    forall uri, p :: StagedFor(codec, packs, uri, p) && HasObject(before, uri, p) ==> HasObject(after, uri, p)
  }

  // The stored state's URI, when there is one, names an object holding its pack.
  ghost predicate UriBacked(codec: Codec, packs: set<string>, objects: Objects, uri: string) {
    uri != "" ==> exists p :: StagedFor(codec, packs, uri, p) && HasObject(objects, uri, p)
  }

  // The pack this input's engines will ask for is where they will look for it.
  ghost predicate Held(objects: Objects, ready: EngineInput) {
    ready.delivery.inlined || HasObject(objects, ready.stagedPackUri, ready.packJson)
  }

  ghost predicate Deliverable(codec: Codec, packs: set<string>, input: EngineInput) {
    input.packHash == codec.hash(input.packJson) && input.packJson in packs
  }

  lemma StagedForInput(codec: Codec, packs: set<string>, input: EngineInput)
    requires WellBehaved(codec) && Deliverable(codec, packs, input)
    requires !input.delivery.inlined && input.cfg.stagingBucket != ""
    ensures StagedFor(codec, packs, ExpectedUri(input), input.packJson)
  {}

  // Staging this input has something to rely on: no bucket at all, an upload of its own,
  // or a skipped upload whose object really is there.
  ghost predicate PackInPlace(c: Cloud, input: EngineInput, prior: State) {
    || input.delivery.inlined
    || prior.stagedPackUri != ExpectedUri(input)
    || HasObject(c.objects, ExpectedUri(input), input.packJson)
  }

  // Staging, even one that fails after writing, keeps every pack; and a staging that
  // succeeds leaves this pack where it will be looked for exactly when that holds.
  lemma StagedHolds(codec: Codec, packs: set<string>, c: Cloud, input: EngineInput, prior: State)
    requires WellBehaved(codec) && Separates(codec, packs) && Deliverable(codec, packs, input)
    ensures var (d, staged) := Staged(c, input, prior);
            && KeepsPacks(codec, packs, c.objects, d.objects)
            && (staged.Ok? ==> (Held(d.objects, WithUri(input)) <==> PackInPlace(c, input, prior)))
  {
    if !input.delivery.inlined && input.cfg.stagingBucket != "" {
      StagedForInput(codec, packs, input);
      var uri := ExpectedUri(input);
      hide StagedFor, GcsUri.StagedPackUri, GcsUri.SplitGcsUri;
      if prior.stagedPackUri != uri && GcsUri.SplitGcsUri(uri).Ok? {
        forall u, p | StagedFor(codec, packs, u, p) && HasObject(c.objects, u, p)
          ensures HasObject(c.objects[GcsUri.SplitGcsUri(uri).value := input.packJson], u, p)
        {
          StagingKeepsObjects(codec, packs, c.objects, u, p, uri, input.packJson);
        }
      }
    }
  }

  // A stored URI with its object behind it is good for the one pack it can be for.
  lemma BackedInPlace(codec: Codec, packs: set<string>, c: Cloud, input: EngineInput, prior: State)
    requires WellBehaved(codec) && Separates(codec, packs) && Deliverable(codec, packs, input)
    requires UriBacked(codec, packs, c.objects, prior.stagedPackUri)
    requires Staged(c, input, prior).1.Ok?
    ensures PackInPlace(c, input, prior)
  {
    if !input.delivery.inlined && prior.stagedPackUri == ExpectedUri(input) {
      StagedForInput(codec, packs, input);
      var uri := ExpectedUri(input);
      hide StagedFor, GcsUri.StagedPackUri, GcsUri.SplitGcsUri;
      var p :| StagedFor(codec, packs, uri, p) && HasObject(c.objects, uri, p);
      OnePackPerUri(codec, packs, uri, p, input.packJson);
    }
  }

  // ---- What the other calls leave alone ----

  // Objects stay, and engines only disappear.
  ghost predicate Shrinks(c: Cloud, d: Cloud) {
    && d.objects == c.objects
    && forall n :: n in d.engines ==> n in c.engines && d.engines[n] == c.engines[n]
  }

  // Objects stay, and an engine that is new or changed runs a spec of these agents.
  ghost predicate Deploys(c: Cloud, d: Cloud, specs: Specs, agents: seq<string>) {
    && d.objects == c.objects
    && forall n :: n in d.engines
         ==> (n in c.engines && d.engines[n] == c.engines[n]) || exists a :: a in agents && d.engines[n] == specs(a)
  }

  lemma PutDeploys(specs: Specs, c: Cloud, agent: string, prior: Engines)
    ensures Deploys(c, PutEngine(c, specs(agent), agent, prior).0, specs, [agent])
  {
    assert agent in [agent];
  }

  lemma {:induction false} AgentsDeploy(
    buildable: bool, specs: Specs, c: Cloud, agents: seq<string>, prior: Engines, next: State
  )
    ensures Deploys(c, AgentsApplied(buildable, specs, c, agents, prior, next).cloud, specs, agents)
    ensures !buildable ==> AgentsApplied(buildable, specs, c, agents, prior, next).cloud == c
    decreases |agents|
  {
    if agents != [] && buildable {
      var (d, made) := OneApplied(buildable, specs, c, agents[0], prior);
      PutDeploys(specs, c, agents[0], prior);
      if made.Some? {
        var next' := next.(engines := next.engines[agents[0] := EngineState(made.value, false)]);
        AgentsDeploy(buildable, specs, d, agents[1..], prior, next');
        hide PutEngine;
        DeploysCons(c, d, AgentsApplied(buildable, specs, d, agents[1..], prior, next').cloud, specs, agents);
      } else {
        hide PutEngine;
        DeploysCons(c, d, d, specs, agents);
      }
    }
  }

  lemma DeploysCons(c: Cloud, d: Cloud, e: Cloud, specs: Specs, agents: seq<string>)
    requires agents != [] && Deploys(c, d, specs, [agents[0]]) && Deploys(d, e, specs, agents[1..])
    ensures Deploys(c, e, specs, agents)
  {}

  lemma {:induction false} DeletesShrink(c: Cloud, names: seq<string>, next: State)
    requires forall n :: n in names ==> n in next.engines
    requires forall i, j | 0 <= i < j < |names| :: names[i] != names[j]
    ensures Shrinks(c, NamesDeleted(c, names, next).cloud)
    decreases |names|
  {
    if names != [] {
      var (d, r) := Deleting(c, next.engines[names[0]].name);
      if r.Ok? {
        assert forall n :: n in names[1..] ==> n in names && n != names[0];
        DeletesShrink(d, names[1..], next.(engines := next.engines - {names[0]}));
      }
    }
  }

  lemma {:induction false} ProbesShrink(c: Cloud, refs: seq<string>, engines: Engines)
    requires forall n :: n in refs ==> n in engines
    ensures Shrinks(c, Plan.ProbeAll(c, refs, engines).cloud)
    decreases |refs|
  {
    if refs != [] {
      assert forall n :: n in refs[1..] ==> n in refs;
      ProbesShrink(Getting(c, engines[refs[0]].name).0, refs[1..], engines);
    }
  }

  lemma {:induction false} DestroysShrink(
    c: Cloud, names: seq<string>, engines: Engines, fails: Destroy.Callback, sent: nat, firstErr: Option<string>
  )
    requires forall n :: n in names ==> n in engines
    ensures Shrinks(c, Destroy.NamesDestroyed(c, names, engines, fails, sent, firstErr).cloud)
    decreases |names|
  {
    if names != [] {
      var (d, more, one) := Destroy.OneDestroyed(c, engines[names[0]].name, fails, sent);
      assert Shrinks(c, d);
      hide Destroy.OneDestroyed;
      assert forall n :: n in names[1..] ==> n in names;
      if !one.CallbackError? {
        DestroysShrink(d, names[1..], engines, fails, more, if one.DeleteError?
            && firstErr.None? then Some(names[0]) else firstErr);
      }
    }
  }

  // ---- The invariant ----

  ghost function Packs(events: seq<Event>): set<string> {
    set e | e in events && e.ApplyEvent? :: e.req.packJson
  }

  // A dry run that records where its pack would be, without putting it there.
  ghost predicate StagedDryRun(e: Event) {
    e.ApplyEvent? && e.req.cfg.dryRun && !DecidePackDelivery(e.req.packJson, e.req.cfg).inlined
  }

  // Nothing but applies decides what is in the buckets, and what is said to be there.
  ghost predicate Disturbs(e: Event) {
    StagedDryRun(e) || e.Overwrite?
  }

  ghost predicate Undisturbed(events: seq<Event>) {
    forall e :: e in events ==> !Disturbs(e)
  }

  // spec is what this apply of the run builds for this agent, and its pack is surely in
  // place.
  ghost predicate BuiltFor(
    codec: Codec, objects: Objects, applies: seq<Event>, sure: bool, spec: EngineSpec, req: Request, agent: string
  ) {
    && ApplyEvent(req) in applies && Gathers(codec, req)
    && Buildable(codec, WithUri(InputOf(codec, req)))
    && spec == BuiltSpec(codec, WithUri(InputOf(codec, req)), agent)
    && (sure ==> Held(objects, WithUri(InputOf(codec, req))))
  }

  ghost predicate Backed(codec: Codec, objects: Objects, applies: seq<Event>, sure: bool, spec: EngineSpec) {
    exists req, agent :: BuiltFor(codec, objects, applies, sure, spec, req, agent)
  }

  ghost predicate AllBacked(codec: Codec, c: Cloud, applies: seq<Event>, sure: bool) {
    forall n :: n in c.engines && n in c.created ==> Backed(codec, c.objects, applies, sure, c.engines[n])
  }

  ghost predicate Delivers(codec: Codec, packs: set<string>, w: World, applies: seq<Event>, sure: bool) {
    && Healthy(w)
    && (sure ==> UriBacked(codec, packs, w.cloud.objects, Prior(w).stagedPackUri))
    && AllBacked(codec, w.cloud, applies, sure)
  }

  // What an input's engines ask for stays where they look for it.
  lemma HeldStays(codec: Codec, packs: set<string>, before: Objects, after: Objects, input: EngineInput)
    requires WellBehaved(codec) && KeepsPacks(codec, packs, before, after) && Deliverable(codec, packs, input)
    requires Held(before, WithUri(input)) && (input.delivery.inlined || ExpectedUri(input) != "")
    ensures Held(after, WithUri(input))
  {}

  lemma BackedStays(
    codec: Codec, packs: set<string>, before: Objects, after: Objects, few: seq<Event>, many: seq<Event>, sure: bool,
    spec: EngineSpec
  )
    requires WellBehaved(codec) && KeepsPacks(codec, packs, before, after) && Packs(few) <= packs
    requires (forall e :: e in few ==> e in many) && Backed(codec, before, few, sure, spec)
    ensures Backed(codec, after, many, sure, spec)
  {
    var req, agent :| BuiltFor(codec, before, few, sure, spec, req, agent);
    assert ApplyEvent(req).req.packJson in Packs(few);
    hide BuiltSpec, Gathers, Held;
    if sure {
      HeldStays(codec, packs, before, after, InputOf(codec, req));
    }
    assert BuiltFor(codec, after, many, sure, spec, req, agent);
  }

  lemma UriStays(codec: Codec, packs: set<string>, before: Objects, after: Objects, uri: string)
    requires KeepsPacks(codec, packs, before, after) && UriBacked(codec, packs, before, uri)
    ensures UriBacked(codec, packs, after, uri)
  {}

  // Objects stay, every engine of ours was there and ours before, and the stored URI is
  // empty or as it was.
  ghost predicate Quiet(w: World, v: World, sure: bool)
    requires ParseSpec(w.stored).Ok? && ParseSpec(v.stored).Ok?
  {
    && v.cloud.objects == w.cloud.objects
    && OursStay(w.cloud, v.cloud)
    && (sure ==> Prior(v).stagedPackUri == "" || Prior(v).stagedPackUri == Prior(w).stagedPackUri)
  }

  ghost predicate OursStay(c: Cloud, d: Cloud) {
    forall n :: n in d.engines && n in d.created
                ==> n in c.engines && n in c.created && d.engines[n] == c.engines[n]
  }

  lemma QuietDelivers(
    codec: Codec, packs: set<string>, w: World, v: World, applies: seq<Event>, more: seq<Event>, sure: bool
  )
    requires WellBehaved(codec) && Delivers(codec, packs, w, applies, sure) && Packs(applies) <= packs
    requires Healthy(v) && Quiet(w, v, sure)
    requires forall e :: e in applies ==> e in more
    ensures Delivers(codec, packs, v, more, sure)
  {
    hide Healthy, ParseSpec, Packs, Backed;
    forall n | n in v.cloud.engines && n in v.cloud.created
      ensures Backed(codec, v.cloud.objects, more, sure, v.cloud.engines[n])
    {
      BackedStays(codec, packs, w.cloud.objects, v.cloud.objects, applies, more, sure, w.cloud.engines[n]);
    }
  }

  // ---- One apply ----

  lemma StagingShrinks(c: Cloud, input: EngineInput, prior: State)
    ensures var d := Staged(c, input, prior).0;
            forall n :: n in d.engines ==> n in c.engines && d.engines[n] == c.engines[n]
  {}

  lemma ApplyDeploys(codec: Codec, c: Cloud, input: EngineInput, agents: seq<string>, prior: State)
    requires agents != [] && Staged(c, input, prior).1.Ok?
    ensures var d, r := Staged(c, input, prior).0, EnginesApplied(codec, c, input, agents, prior);
            if Buildable(codec, WithUri(input)) then Deploys(d, r.cloud, SpecsOf(codec, WithUri(input)), agents)
            else r.cloud == d
  {
    var d, ready := Staged(c, input, prior).0, WithUri(input);
    var buildable, specs := Buildable(codec, ready), SpecsOf(codec, ready);
    var mid := AppliedInParts(codec, c, input, agents, prior);
    AgentsDeploy(buildable, specs, d, agents, prior.engines, StartState(ready, prior));
    hide EnginesApplied, Buildable, SpecsOf, Staged, StartState, WithUri;
    assert !buildable ==> mid.err.Some?;
    hide AgentsApplied;
    if mid.err.None? {
      var removed := SortedNames(mid.state.engines.Keys - Names(agents));
      SortedNamesDistinct(removed);
      DeletesShrink(mid.cloud, removed, mid.state);
      hide NamesDeleted;
    }
  }

  lemma BuiltIsBacked(
    codec: Codec, objects: Objects, applies: seq<Event>, sure: bool, req: Request, spec: EngineSpec, agent: string
  )
    requires ApplyEvent(req) in applies && Gathers(codec, req) && Buildable(codec, WithUri(InputOf(codec, req)))
    requires sure ==> Held(objects, WithUri(InputOf(codec, req)))
    requires spec == SpecsOf(codec, WithUri(InputOf(codec, req)))(agent)
    ensures Backed(codec, objects, applies, sure, spec)
  {
    assert BuiltFor(codec, objects, applies, sure, spec, req, agent);
  }

  // The URI an apply stores is the prior one, or empty, or the one it has just used.
  lemma StoredUri(codec: Codec, packs: set<string>, w: World, req: Request)
    requires Healthy(w) && Reaches(codec, w, req) && WellBehaved(codec)
    requires Deliverable(codec, packs, InputOf(codec, req))
    requires var d := Staged(w.cloud, InputOf(codec, req), Prior(w));
             && UriBacked(codec, packs, d.0.objects, Prior(w).stagedPackUri)
             && (d.1.Ok? ==> Held(d.0.objects, WithUri(InputOf(codec, req))))
    ensures UriBacked(codec, packs, Staged(w.cloud, InputOf(codec, req), Prior(w)).0.objects,
                      ApplyOf(codec, w, req).state.stagedPackUri)
  {
    var input, agents, prior := InputOf(codec, req), AgentsOf(codec, req), Prior(w);
    var stop, slip := ApplyStops(codec, w.cloud, input, agents, prior);
    var (d, staged) := Staged(w.cloud, input, prior);
    hide EnginesApplied, SpecsOf, Keeps, Deployed, Rewritten, Healthy, ParseSpec, Gathers, InputOf, AgentsOf;
    if staged.Ok? {
      ReadyHasUri(w.cloud, input, prior);
      assert ApplyOf(codec, w, req).state.stagedPackUri == ExpectedUri(input);
      assert input.delivery.inlined ==> ExpectedUri(input) == "";
      hide StoppedAt;
      if !input.delivery.inlined {
        StagedForInput(codec, packs, input);
      }
    }
  }

  // What staging does for one request of a run.
  ghost predicate StagesWell(codec: Codec, packs: set<string>, w: World, req: Request, sure: bool)
    requires Reaches(codec, w, req)
  {
    var (d, staged) := Staged(w.cloud, InputOf(codec, req), Prior(w));
    && KeepsPacks(codec, packs, w.cloud.objects, d.objects)
    && (sure ==> UriBacked(codec, packs, d.objects, Prior(w).stagedPackUri))
    && (sure && staged.Ok? ==> Held(d.objects, WithUri(InputOf(codec, req))))
  }

  lemma RunStages(codec: Codec, packs: set<string>, w: World, req: Request, sure: bool)
    requires WellBehaved(codec) && Separates(codec, packs) && req.packJson in packs && Reaches(codec, w, req)
    requires sure ==> UriBacked(codec, packs, w.cloud.objects, Prior(w).stagedPackUri)
    ensures StagesWell(codec, packs, w, req, sure)
  {
    var input, prior := InputOf(codec, req), Prior(w);
    var (d, staged) := Staged(w.cloud, input, prior);
    StagedHolds(codec, packs, w.cloud, input, prior);
    hide Staged, ParseSpec, UriBacked, KeepsPacks, Held, PackInPlace, WithUri, Separates, WellBehaved;
    if sure {
      UriStays(codec, packs, w.cloud.objects, d.objects, prior.stagedPackUri);
      if staged.Ok? {
        BackedInPlace(codec, packs, w.cloud, input, prior);
      }
    }
  }

  lemma ApplyDelivers(
    codec: Codec, packs: set<string>, w: World, req: Request, applies: seq<Event>, more: seq<Event>, sure: bool
  )
    requires WellBehaved(codec) && Separates(codec, packs) && Packs(more) <= packs
    requires (forall e :: e in applies ==> e in more) && ApplyEvent(req) in more
    requires Delivers(codec, packs, w, applies, sure) && Reaches(codec, w, req)
    ensures Delivers(codec, packs, Exec(codec, w, ApplyEvent(req)), more, sure)
    ensures KeepsPacks(codec, packs, w.cloud.objects, Exec(codec, w, ApplyEvent(req)).cloud.objects)
  {
    assert ApplyEvent(req).req.packJson in Packs(more);
    assert Packs(applies) <= packs by {
      PacksGrow(applies, more);
    }
    hide EnginesApplied, Staged, Healthy, ParseSpec, MarshalSpec, AllBacked, UriBacked, KeepsPacks, Held, Gathers,
         InputOf, Packs, WellBehaved, Separates;
    RunStages(codec, packs, w, req, sure);
    if sure {
      StoredUri(codec, packs, w, req);
    }
    SpecsBacked(codec, packs, w, req, applies, more, sure);
    ApplyAdvances(codec, w, req);
    var v, r := Exec(codec, w, ApplyEvent(req)), ApplyOf(codec, w, req);
    assert v.cloud == r.cloud && Prior(v) == r.state;
  }

  lemma SpecsBacked(
    codec: Codec, packs: set<string>, w: World, req: Request, applies: seq<Event>, more: seq<Event>, sure: bool
  )
    requires WellBehaved(codec) && Packs(applies) <= packs && (forall e :: e in applies ==> e in more)
    requires ApplyEvent(req) in more
    requires Delivers(codec, packs, w, applies, sure)
    requires Reaches(codec, w, req) && StagesWell(codec, packs, w, req, sure)
    ensures var d, r := Staged(w.cloud, InputOf(codec, req), Prior(w)).0, ApplyOf(codec, w, req);
            r.cloud.objects == d.objects && AllBacked(codec, r.cloud, more, sure)
  {
    var input, agents, prior := InputOf(codec, req), AgentsOf(codec, req), Prior(w);
    var (d, staged) := Staged(w.cloud, input, prior);
    var r := ApplyOf(codec, w, req);
    var ready := WithUri(input);
    var specs := SpecsOf(codec, ready);
    StagingShrinks(w.cloud, input, prior);
    OldNamesStay(codec, w, req);
    assert staged.Err? ==> r.cloud == d;
    if staged.Ok? {
      ApplyDeploys(codec, w.cloud, input, agents, prior);
    }
    hide EnginesApplied, Staged, Healthy, ParseSpec, SpecsOf, Buildable, KeepsPacks, Packs, Backed, Held, Gathers,
         InputOf, AgentsOf, WithUri, UriBacked;
    forall n | n in r.cloud.engines && n in r.cloud.created
      ensures Backed(codec, d.objects, more, sure, r.cloud.engines[n])
    {
      if n in w.cloud.engines && r.cloud.engines[n] == w.cloud.engines[n] {
        BackedStays(codec, packs, w.cloud.objects, d.objects, applies, more, sure, w.cloud.engines[n]);
      } else {
        var a :| a in agents && r.cloud.engines[n] == specs(a);
        BuiltIsBacked(codec, d.objects, more, sure, req, r.cloud.engines[n], a);
      }
    }
  }

  // A live engine that counts as ours after an apply, and was live before, was ours.
  lemma OldNamesStay(codec: Codec, w: World, req: Request)
    requires Healthy(w) && Reaches(codec, w, req)
    ensures forall n :: n in ApplyOf(codec, w, req).cloud.created && n in w.cloud.engines ==> n in w.cloud.created
  {
    ApplyAdvances(codec, w, req);
    hide EnginesApplied, ParseSpec, MarshalSpec, OwnCalls, Lost;
  }

  // ---- Every other event ----

  lemma ShrinkingIsQuiet(w: World, v: World, sure: bool)
    requires ParseSpec(w.stored).Ok? && ParseSpec(v.stored).Ok?
    requires Shrinks(w.cloud, v.cloud) && v.cloud.created <= w.cloud.created
    requires v.stored.None? || v.stored == w.stored
    ensures Quiet(w, v, sure)
  {
    assert v.stored.None? ==> Prior(v).stagedPackUri == "";
    hide ParseSpec;
  }

  lemma PlanIsQuiet(codec: Codec, w: World, req: Request, sure: bool)
    requires Healthy(w)
    ensures var v := Exec(codec, w, PlanEvent(req)); ParseSpec(v.stored).Ok? && Quiet(w, v, sure)
  {
    if Verifies(codec, w, req) {
      var refs := SortedNames(Plan.SettledNames(Prior(w).engines));
      ProbesShrink(w.cloud, refs, Prior(w).engines);
      ProbesOnlyLook(w.cloud, refs, Prior(w).engines);
    }
    hide ParseSpec, Verifies;
    ShrinkingIsQuiet(w, Exec(codec, w, PlanEvent(req)), sure);
  }

  lemma DestroyedShrinks(w: World, dryRun: bool, fails: Destroy.Callback)
    requires Healthy(w)
    ensures var r := DestroyOf(w, dryRun, fails);
            Shrinks(w.cloud, r.cloud) && r.cloud.created == w.cloud.created
  {
    DestroyOfEffect(w, dryRun, fails);
    var engines := Prior(w).engines;
    DestroysShrink(w.cloud, SortedNames(engines.Keys), engines, fails, 0, None);
    hide Destroy.NamesDestroyed, ParseSpec, Healthy, Evolves;
  }

  lemma DestroyIsQuiet(codec: Codec, w: World, e: Event, sure: bool)
    requires Healthy(w) && e.DestroyEvent?
    ensures var v := Exec(codec, w, e); ParseSpec(v.stored).Ok? && Quiet(w, v, sure)
  {
    DestroyedShrinks(w, e.dryRun, e.fails);
    hide DestroyOf, Shrinks;
    ShrinkingIsQuiet(w, Exec(codec, w, e), sure);
  }

  lemma VanishIsQuiet(codec: Codec, w: World, names: set<ResourceName>, sure: bool)
    requires Healthy(w)
    ensures var v := Exec(codec, w, Vanish(names)); ParseSpec(v.stored).Ok? && Quiet(w, v, sure)
  {
    assert ParseSpec(w.stored).Ok?;
    hide ParseSpec, Healthy, Orphans;
  }

  lemma ForeignIsQuiet(codec: Codec, w: World, spec: EngineSpec, sure: bool)
    requires Healthy(w)
    ensures var v := Exec(codec, w, Foreign(spec)); ParseSpec(v.stored).Ok? && Quiet(w, v, sure)
  {
    assert w.cloud.next !in w.cloud.created;
    hide ParseSpec, Healthy, Orphans;
  }

  // A dry run stages nothing; it records a URI when its pack would be staged.
  lemma DryRunIsQuiet(codec: Codec, w: World, req: Request, sure: bool)
    requires Healthy(w) && Reads(codec, w, req) && req.cfg.dryRun && (sure ==> !StagedDryRun(ApplyEvent(req)))
    ensures var v := Exec(codec, w, ApplyEvent(req)); ParseSpec(v.stored).Ok? && Quiet(w, v, sure)
  {
    var input, agents, prior := InputOf(codec, req), AgentsOf(codec, req), Prior(w);
    DryRunAdvances(codec, w, req);
    DryRunKeepsOurs(codec, w.cloud, input, agents, prior);
    var v, r := Exec(codec, w, ApplyEvent(req)), DryRun.DryApplied(codec, w.cloud, input, agents, prior);
    assert v.cloud == r.cloud && Prior(v) == r.state && Healthy(v);
    assert sure ==> input.delivery.inlined;
    hide DryRun.DryApplied, ParseSpec, MarshalSpec, Healthy, Exec, ApplyOf, Advances, OursStay, AgentsOf, InputOf,
         Gathers;
  }

  lemma DryRunKeepsOurs(codec: Codec, c: Cloud, input: EngineInput, agents: seq<string>, prior: State)
    requires Consistent(c, prior.engines) && agents != [] && Ascending(agents)
    ensures var r := DryRun.DryApplied(codec, c, input, agents, prior);
            && r.cloud.objects == c.objects && OursStay(c, r.cloud)
            && r.cloud.fate == c.fate && r.cloud.log == c.log
            && (input.delivery.inlined ==> r.state.stagedPackUri == "")
            && (!input.delivery.inlined && input.cfg.stagingBucket != ""
                ==> r.state.stagedPackUri == ExpectedUri(input))
  {
    assert DryRun.Past(c.next, prior.engines);
    assert forall n :: n in c.engines ==> n < c.next;
    DryRun.DryRunOutcome(codec, c, input, agents, prior);
    hide DryRun.DryApplied, Buildable, DryRun.MadeUp, DryRun.Past, Consistent, GcsUri.StagedPackUri;
  }

  // ---- Over whole runs ----

  ghost predicate Progresses(codec: Codec, packs: set<string>, w: World, e: Event, more: seq<Event>, sure: bool) {
    var v := Exec(codec, w, e);
    && Delivers(codec, packs, v, more, sure)
    && (!e.Overwrite? ==> KeepsPacks(codec, packs, w.cloud.objects, v.cloud.objects))
  }

  // Which apply built an engine does not depend on what the buckets hold.
  lemma BackedAnywhere(
    codec: Codec, before: Objects, after: Objects, few: seq<Event>, many: seq<Event>, spec: EngineSpec
  )
    requires Backed(codec, before, few, false, spec) && forall x :: x in few ==> x in many
    ensures Backed(codec, after, many, false, spec)
  {
    hide BuiltSpec, Gathers, Buildable, Held;
    var req, agent :| BuiltFor(codec, before, few, false, spec, req, agent);
    assert BuiltFor(codec, after, many, false, spec, req, agent);
  }

  lemma AllBackedAnywhere(codec: Codec, c: Cloud, objects: Objects, few: seq<Event>, many: seq<Event>)
    requires AllBacked(codec, c, few, false) && forall x :: x in few ==> x in many
    ensures AllBacked(codec, c.(objects := objects), many, false)
  {
    hide Backed;
    forall n | n in c.engines && n in c.created
      ensures Backed(codec, objects, many, false, c.engines[n])
    {
      BackedAnywhere(codec, c.objects, objects, few, many, c.engines[n]);
    }
  }

  lemma OverwriteDelivers(
    codec: Codec, packs: set<string>, w: World, objects: Objects, applies: seq<Event>, more: seq<Event>
  )
    requires Delivers(codec, packs, w, applies, false) && forall x :: x in applies ==> x in more
    ensures Delivers(codec, packs, Exec(codec, w, Overwrite(objects)), more, false)
  {
    hide Healthy, AllBacked, UriBacked;
    OverwriteAdvances(codec, w, objects);
    AllBackedAnywhere(codec, w.cloud, objects, applies, more);
    OverwriteSets(codec, w, objects);
    hide Exec;
  }

  lemma OverwriteSets(codec: Codec, w: World, objects: Objects)
    ensures Exec(codec, w, Overwrite(objects)).cloud == w.cloud.(objects := objects)
  {}

  lemma ExecDelivers(
    codec: Codec, packs: set<string>, w: World, e: Event, applies: seq<Event>, more: seq<Event>, sure: bool
  )
    requires WellBehaved(codec) && Separates(codec, packs) && Packs(more) <= packs
    requires (forall x :: x in applies ==> x in more) && e in more && (sure ==> !Disturbs(e))
    requires Delivers(codec, packs, w, applies, sure)
    ensures Progresses(codec, packs, w, e, more, sure)
  {
    PacksGrow(applies, more);
    if e.ApplyEvent? && Reaches(codec, w, e.req) {
      hide Exec, Packs, WellBehaved, Separates, Delivers, KeepsPacks, Reads;
      ApplyDelivers(codec, packs, w, e.req, applies, more, sure);
    } else if e.Overwrite? {
      hide Exec, Packs, WellBehaved, Separates, Delivers, KeepsPacks;
      OverwriteDelivers(codec, packs, w, e.objects, applies, more);
    } else {
      EventIsQuiet(codec, w, e, sure);
      hide Exec, Packs, WellBehaved, AllBacked, UriBacked, ParseSpec, Reads, OursStay, Healthy;
      QuietDelivers(codec, packs, w, Exec(codec, w, e), applies, more, sure);
    }
  }

  lemma EventIsQuiet(codec: Codec, w: World, e: Event, sure: bool)
    requires Healthy(w) && (e.ApplyEvent? ==> !Reaches(codec, w, e.req)) && !e.Overwrite?
    requires sure ==> !StagedDryRun(e)
    ensures var v := Exec(codec, w, e); Healthy(v) && Quiet(w, v, sure)
  {
    ExecAdvances(codec, w, e);
    match e
    case ApplyEvent(req) =>
      if Reads(codec, w, req) {
        DryRunIsQuiet(codec, w, req, sure);
      }
      hide Healthy, ParseSpec, Reads;
    case PlanEvent(req) => PlanIsQuiet(codec, w, req, sure);
    case DestroyEvent(_, _, _) => DestroyIsQuiet(codec, w, e, sure);
    case Vanish(names) => VanishIsQuiet(codec, w, names, sure);
    case Foreign(spec) => ForeignIsQuiet(codec, w, spec, sure);
  }

  lemma {:induction false} RunsDeliver(
    codec: Codec, packs: set<string>, fate: nat -> Fate, events: seq<Event>, sure: bool
  )
    requires WellBehaved(codec) && Separates(codec, packs) && Packs(events) <= packs
    requires sure ==> Undisturbed(events)
    ensures Delivers(codec, packs, Run(codec, EmptyWorld(fate), events), events, sure)
    decreases |events|
  {
    if events == [] {
      OrphansBounded(codec, fate, events);
    } else {
      var before, last := events[..|events| - 1], events[|events| - 1];
      assert forall x :: x in before ==> x in events;
      PacksGrow(before, events);
      hide Packs, Delivers, WellBehaved, Separates, Exec, EmptyWorld, Disturbs;
      RunsDeliver(codec, packs, fate, before, sure);
      ExecDelivers(codec, packs, Run(codec, EmptyWorld(fate), before), last, before, events, sure);
    }
  }

  // A container of this environment ends up with this agent and this pack.
  ghost predicate ReadsPack(env: Env, platform: Env, objects: Objects, agent: string, pack: string) {
    var cfg := ConfigOf(env + platform);
    && cfg.Ok? && cfg.value.agentName == agent
    && PackData(cfg.value, Some(FetchFrom(objects))) == Ok(pack)
  }

  lemma HeldReads(codec: Codec, objects: Objects, req: Request, agent: string, platform: Env)
    requires WellBehaved(codec) && Gathers(codec, req) && NoReservedNames(platform)
    requires EnvBuildable(WithUri(InputOf(codec, req)))
    ensures ReadsPack(BuiltEnv(codec, WithUri(InputOf(codec, req)), agent), platform, objects, agent, req.packJson)
            <==> Held(objects, WithUri(InputOf(codec, req)))
  {
    var ready := WithUri(InputOf(codec, req));
    assert req.packJson != "";
    ContainerReadsInputs(codec, ready, agent, platform);
    hide BuiltEnv, EnvBuildable, ConfigOf, WithUri;
    if !ready.delivery.inlined {
      SameReaders(ready.stagedPackUri);
      hide GcsUri.SplitGcsUri, GcsUri.ParseGcsUri;
    }
  }

  // The two programs read a URI alike.
  lemma SameReaders(uri: string)
    ensures GcsUri.ParseGcsUri(uri).Ok? <==> GcsUri.SplitGcsUri(uri).Ok?
    ensures GcsUri.ParseGcsUri(uri).Ok? ==> GcsUri.ParseGcsUri(uri).value == GcsUri.SplitGcsUri(uri).value
  {
    hide GcsUri.ParseGcsUri, GcsUri.SplitGcsUri;
    if GcsUri.ParseGcsUri(uri).Ok? {
      var key := GcsUri.ParseGcsUri(uri).value;
      GcsUri.SplitExactly(uri, key.0, key.1);
    }
    if GcsUri.SplitGcsUri(uri).Ok? {
      var key := GcsUri.SplitGcsUri(uri).value;
      GcsUri.SplitExactly(uri, key.0, key.1);
    }
  }

  // This live engine was built by an apply of the run, and a container started from it
  // obtains exactly that apply's pack if and only if the pack is where that apply's
  // route says, as it surely is when nothing but applies has disturbed the buckets.
  ghost predicate ReadsItsPack(
    codec: Codec, c: Cloud, events: seq<Event>, name: ResourceName, platform: Env, req: Request, agent: string
  )
    requires name in c.engines
  {
    && ApplyEvent(req) in events && Gathers(codec, req)
    && c.engines[name] == BuiltSpec(codec, WithUri(InputOf(codec, req)), agent)
    && AsAsked(InputOf(codec, req), agent, c.engines[name])
    && (ReadsPack(c.engines[name].env, platform, c.objects, agent, req.packJson)
        <==> Held(c.objects, WithUri(InputOf(codec, req))))
    && (Undisturbed(events) ==> ReadsPack(c.engines[name].env, platform, c.objects, agent, req.packJson))
  }

  // Whatever happened in a run, this is so of every live engine the adapter created,
  // whether its pack travels inline, was uploaded, or was left where it already was.
  lemma EveryEngineReadsItsPack(codec: Codec, fate: nat -> Fate, events: seq<Event>, name: ResourceName, platform: Env)
    requires WellBehaved(codec) && Separates(codec, Packs(events)) && NoReservedNames(platform)
    requires var c := Run(codec, EmptyWorld(fate), events).cloud; name in c.engines && name in c.created
    ensures exists req, agent ::
              ReadsItsPack(codec, Run(codec, EmptyWorld(fate), events).cloud, events, name, platform, req, agent)
  {
    var c, sure := Run(codec, EmptyWorld(fate), events).cloud, Undisturbed(events);
    hide Undisturbed, Run, Packs, WellBehaved, Separates, EmptyWorld;
    RunsDeliver(codec, Packs(events), fate, events, sure);
    assert Backed(codec, c.objects, events, sure, c.engines[name]);
    var req, agent :| BuiltFor(codec, c.objects, events, sure, c.engines[name], req, agent);
    hide Healthy, Held, ReadsPack, Gathers, InputOf, WithUri, BuiltEnv;
    HeldReads(codec, c.objects, req, agent, platform);
    AsAskedAnyUri(codec, InputOf(codec, req), agent);
    hide BuiltSpec, AsAsked;
    assert ReadsItsPack(codec, c, events, name, platform, req, agent);
  }

  lemma AsAskedAnyUri(codec: Codec, input: EngineInput, agent: string)
    ensures AsAsked(input, agent, BuiltSpec(codec, WithUri(input), agent))
  {
    BuiltAsAsked(codec, WithUri(input), agent);
    hide BuiltSpec;
  }

  lemma PacksGrow(few: seq<Event>, many: seq<Event>)
    requires forall x :: x in few ==> x in many
    ensures Packs(few) <= Packs(many)
  {}

  // Nobody takes this pack away: buckets are changed only so that it is still there.
  ghost predicate Spares(events: seq<Event>, input: EngineInput) {
    forall e :: e in events && e.Overwrite? ==> Held(e.objects, WithUri(input))
  }

  lemma {:induction false} HeldLasts(
    codec: Codec, packs: set<string>, fate: nat -> Fate, first: seq<Event>, rest: seq<Event>, input: EngineInput
  )
    requires WellBehaved(codec) && Separates(codec, packs) && Packs(first + rest) <= packs
    requires Deliverable(codec, packs, input) && (input.delivery.inlined || ExpectedUri(input) != "")
    requires Held(Run(codec, EmptyWorld(fate), first).cloud.objects, WithUri(input)) && Spares(rest, input)
    ensures Held(Run(codec, EmptyWorld(fate), first + rest).cloud.objects, WithUri(input))
    decreases |rest|
  {
    hide Run, Held, WithUri, Packs, Separates, WellBehaved, Deliverable, Delivers, Exec, EmptyWorld, KeepsPacks;
    if rest == [] {
      assert first + rest == first;
    } else {
      var before, last := first + rest[..|rest| - 1], rest[|rest| - 1];
      assert first + rest == before + [last];
      PacksGrow(before, before + [last]);
      assert last in rest && forall e :: e in rest[..|rest| - 1] ==> e in rest;
      HeldLasts(codec, packs, fate, first, rest[..|rest| - 1], input);
      OneMore(codec, EmptyWorld(fate), before, last);
      HeldOneMore(codec, packs, fate, before, last, input);
    }
  }

  lemma HeldOneMore(
    codec: Codec, packs: set<string>, fate: nat -> Fate, before: seq<Event>, last: Event, input: EngineInput
  )
    requires WellBehaved(codec) && Separates(codec, packs) && Packs(before + [last]) <= packs
    requires Deliverable(codec, packs, input) && (input.delivery.inlined || ExpectedUri(input) != "")
    requires Held(Run(codec, EmptyWorld(fate), before).cloud.objects, WithUri(input))
    requires last.Overwrite? ==> Held(last.objects, WithUri(input))
    ensures Held(Exec(codec, Run(codec, EmptyWorld(fate), before), last).cloud.objects, WithUri(input))
  {
    hide Run, Held, WithUri, Packs, Separates, WellBehaved, Deliverable, Delivers, Exec, EmptyWorld, KeepsPacks;
    if last.Overwrite? {
      OverwriteSets(codec, Run(codec, EmptyWorld(fate), before), last.objects);
    } else {
      PacksGrow(before, before + [last]);
      RunsDeliver(codec, packs, fate, before, false);
      var u := Run(codec, EmptyWorld(fate), before);
      ExecDelivers(codec, packs, u, last, before, before + [last], false);
      HeldStays(codec, packs, u.cloud.objects, Exec(codec, u, last).cloud.objects, input);
    }
  }

  // Right after an apply that staged its pack, the environment it builds reads that very
  // pack exactly when the pack was in place, as it is after any run in which nothing but
  // applies disturbed the buckets; and then it does so at every later moment of the run,
  // whatever applies and dry runs stage, unless somebody takes the pack away.
  ghost predicate Readable(codec: Codec, w: World, input: EngineInput, agent: string, platform: Env) {
    ReadsPack(BuiltEnv(codec, WithUri(input), agent), platform, w.cloud.objects, agent, input.packJson)
  }

  lemma StagedPackStaysReadable(
    codec: Codec, fate: nat -> Fate, first: seq<Event>, req: Request, rest: seq<Event>, agent: string, platform: Env
  )
    requires WellBehaved(codec) && NoReservedNames(platform)
    requires Separates(codec, Packs(first + [ApplyEvent(req)] + rest))
    requires var w := Run(codec, EmptyWorld(fate), first);
             Reaches(codec, w, req) && Staged(w.cloud, InputOf(codec, req), Prior(w)).1.Ok?
    requires EnvBuildable(WithUri(InputOf(codec, req)))
    ensures var w, mid, input := Run(codec, EmptyWorld(fate), first), first + [ApplyEvent(req)], InputOf(codec, req);
            && (Readable(codec, Run(codec, EmptyWorld(fate), mid), input, agent, platform)
                <==> PackInPlace(w.cloud, input, Prior(w)))
            && (Undisturbed(first) ==> PackInPlace(w.cloud, input, Prior(w)))
            && (PackInPlace(w.cloud, input, Prior(w)) && Spares(rest, input)
                ==> Readable(codec, Run(codec, EmptyWorld(fate), mid + rest), input, agent, platform))
  {
    var mid, all := first + [ApplyEvent(req)], first + [ApplyEvent(req)] + rest;
    var packs, input, sure := Packs(all), InputOf(codec, req), Undisturbed(first);
    assert ApplyEvent(req) in all && ApplyEvent(req).req.packJson in packs;
    PacksGrow(first, all);
    PacksGrow(mid, all);
    assert req.packJson != "";
    assert Deliverable(codec, packs, input) && (input.delivery.inlined || ExpectedUri(input) != "");
    hide Run, Packs, Separates, WellBehaved, Undisturbed, EmptyWorld, Delivers, PackInPlace, Held, ReadsPack,
         EnvBuildable;
    var w, v := Run(codec, EmptyWorld(fate), first), Run(codec, EmptyWorld(fate), mid);
    AppliedHolds(codec, packs, fate, first, req);
    HeldReads(codec, v.cloud.objects, req, agent, platform);
    HeldReads(codec, Run(codec, EmptyWorld(fate), all).cloud.objects, req, agent, platform);
    if PackInPlace(w.cloud, input, Prior(w)) && Spares(rest, input) {
      HeldLasts(codec, packs, fate, mid, rest, input);
    }
  }

  // After this apply its pack is where its route says exactly when it was in place.
  lemma AppliedHolds(codec: Codec, packs: set<string>, fate: nat -> Fate, first: seq<Event>, req: Request)
    requires WellBehaved(codec) && Separates(codec, packs) && Packs(first) <= packs && req.packJson in packs
    requires var w := Run(codec, EmptyWorld(fate), first);
             Reaches(codec, w, req) && Staged(w.cloud, InputOf(codec, req), Prior(w)).1.Ok?
    ensures var w, input := Run(codec, EmptyWorld(fate), first), InputOf(codec, req);
            var v := Run(codec, EmptyWorld(fate), first + [ApplyEvent(req)]);
            && (Held(v.cloud.objects, WithUri(input)) <==> PackInPlace(w.cloud, input, Prior(w)))
            && (Undisturbed(first) ==> PackInPlace(w.cloud, input, Prior(w)))
  {
    var w, input, sure := Run(codec, EmptyWorld(fate), first), InputOf(codec, req), Undisturbed(first);
    assert Deliverable(codec, packs, input);
    hide Undisturbed, Run, EmptyWorld, PackInPlace, Held, Separates, WellBehaved, Packs;
    OneMore(codec, EmptyWorld(fate), first, ApplyEvent(req));
    RunsDeliver(codec, packs, fate, first, sure);
    StagedHolds(codec, packs, w.cloud, input, Prior(w));
    ApplyObjects(codec, w, req);
    hide Staged, Exec, InputOf, WithUri, Deliverable, KeepsPacks;
    if sure {
      BackedInPlace(codec, packs, w.cloud, input, Prior(w));
    }
  }

  // Only staging writes objects.
  lemma ApplyObjects(codec: Codec, w: World, req: Request)
    requires Reaches(codec, w, req)
    ensures var d := Staged(w.cloud, InputOf(codec, req), Prior(w)).0;
            Exec(codec, w, ApplyEvent(req)).cloud.objects == d.objects
  {
    var input, agents, prior := InputOf(codec, req), AgentsOf(codec, req), Prior(w);
    if Staged(w.cloud, input, prior).1.Ok? {
      ApplyDeploys(codec, w.cloud, input, agents, prior);
      hide EnginesApplied;
    }
    hide Staged, InputOf, AgentsOf, ParseSpec, MarshalSpec, Gathers, Buildable;
  }

  // ---- A dry run's document, carried into a real apply ----

  function AsDryRun(req: Request): Request {
    req.(cfg := req.cfg.(dryRun := true))
  }

  // The request can be gathered, staged and built, and its pack does not travel inline.
  ghost predicate DeploysStaged(codec: Codec, req: Request) {
    && Gathers(codec, req) && !req.cfg.dryRun && req.cfg.stagingBucket != ""
    && !DecidePackDelivery(req.packJson, req.cfg).inlined && Buildable(codec, WithUri(InputOf(codec, req)))
  }

  // The dry run recorded where the pack would be, and nothing is there.
  ghost predicate Misled(codec: Codec, w: World, req: Request) {
    && Calm(w.cloud) && Reaches(codec, w, req) && w.cloud.objects == map[]
    && Prior(w).stagedPackUri == ExpectedUri(InputOf(codec, req))
  }

  lemma DryRunMisleads(codec: Codec, fate: nat -> Fate, req: Request)
    requires DeploysStaged(codec, req) && forall t: nat :: fate(t) == Fate({}, Fine)
    ensures Misled(codec, Exec(codec, EmptyWorld(fate), ApplyEvent(AsDryRun(req))), req)
  {
    var start, dry := EmptyWorld(fate), AsDryRun(req);
    EmptyIsHealthy(fate);
    assert start.cloud.objects == map[] && start.cloud.fate == fate && start.cloud.log == [];
    SameRoute(codec, start, req);
    hide EmptyWorld, Healthy, DeploysStaged, ExpectedUri, InputOf, Reads, Exec, ParseSpec;
    DryRunStores(codec, start, dry);
  }

  lemma SameRoute(codec: Codec, w: World, req: Request)
    requires DeploysStaged(codec, req) && ParseSpec(w.stored).Ok?
    ensures Reads(codec, w, AsDryRun(req))
    ensures ExpectedUri(InputOf(codec, AsDryRun(req))) == ExpectedUri(InputOf(codec, req))
    ensures Reads(codec, w, req) && StagedDryRun(ApplyEvent(AsDryRun(req))) && req.cfg.stagingBucket != ""
  {
    hide Buildable, ParseSpec, GcsUri.StagedPackUri;
  }

  // What a dry run of a staged pack stores, and what it leaves alone.
  lemma DryRunStores(codec: Codec, w: World, dry: Request)
    requires Healthy(w) && Reads(codec, w, dry) && StagedDryRun(ApplyEvent(dry)) && dry.cfg.stagingBucket != ""
    ensures var v := Exec(codec, w, ApplyEvent(dry));
            && ParseSpec(v.stored).Ok? && Prior(v).stagedPackUri == ExpectedUri(InputOf(codec, dry))
            && v.cloud.objects == w.cloud.objects && v.cloud.fate == w.cloud.fate && v.cloud.log == w.cloud.log
  {
    var input, agents, prior := InputOf(codec, dry), AgentsOf(codec, dry), Prior(w);
    DryRunKeepsOurs(codec, w.cloud, input, agents, prior);
    DryRunAdvances(codec, w, dry);
    assert !input.delivery.inlined && input.cfg.stagingBucket != "";
    hide Healthy, ParseSpec, MarshalSpec, Gathers, InputOf, AgentsOf, DryRun.DryApplied, Advances, OursStay,
         ExpectedUri;
    var v, r := Exec(codec, w, ApplyEvent(dry)), DryRun.DryApplied(codec, w.cloud, input, agents, prior);
    assert v.cloud == r.cloud && Prior(v) == r.state;
  }

  lemma MisledSkips(codec: Codec, w: World, req: Request)
    requires DeploysStaged(codec, req) && Misled(codec, w, req)
    ensures Stageable(InputOf(codec, req), Prior(w)) && Staged(w.cloud, InputOf(codec, req), Prior(w)).1.Ok?
    ensures !PackInPlace(w.cloud, InputOf(codec, req), Prior(w))
  {
    hide Buildable, ParseSpec, Gathers, GcsUri.StagedPackUri, GcsUri.SplitGcsUri, Calm;
  }

  // The agent's engine is live and runs the spec of this request, and a container
  // started from it does not obtain the request's pack.
  ghost predicate Astray(codec: Codec, v: World, req: Request, agent: string, platform: Env) {
    && Gathers(codec, req) && ParseSpec(v.stored).Ok? && agent in Prior(v).engines
    && var name, spec := Prior(v).engines[agent].name, BuiltSpec(codec, WithUri(InputOf(codec, req)), agent);
       && Serves(v.cloud, name, spec) && name in v.cloud.created
       && !ReadsPack(spec.env, platform, v.cloud.objects, agent, req.packJson)
  }

  // So after a dry run and the real apply of the same request, without any fault, every
  // agent's engine is up and its container cannot read its pack.
  lemma DryRunHidesPack(codec: Codec, fate: nat -> Fate, req: Request, agent: string, platform: Env)
    requires WellBehaved(codec) && NoReservedNames(platform)
    requires DeploysStaged(codec, req) && agent in AgentsOf(codec, req)
    requires forall t: nat :: fate(t) == Fate({}, Fine)
    ensures var v := Run(codec, EmptyWorld(fate), [ApplyEvent(AsDryRun(req)), ApplyEvent(req)]);
            Astray(codec, v, req, agent, platform)
  {
    var dry, apply, start := ApplyEvent(AsDryRun(req)), ApplyEvent(req), EmptyWorld(fate);
    assert [dry] + [apply] == [dry, apply] && [dry] + [apply] + [] == [dry, apply];
    assert EnvBuildable(WithUri(InputOf(codec, req)));
    assert Separates(codec, Packs([dry, apply]));
    hide Exec, EmptyWorld, Packs, Separates, WellBehaved, Run, DeploysStaged, Astray, Healthy, ReadsPack,
         PackInPlace;
    MisledAfter(codec, fate, req);
    MisledSkips(codec, Run(codec, start, [dry]), req);
    ConvergedAfter(codec, fate, req);
    StagedPackStaysReadable(codec, fate, [dry], req, [], agent, platform);
    AstrayFrom(codec, Run(codec, start, [dry, apply]), req, agent, platform);
  }

  lemma MisledAfter(codec: Codec, fate: nat -> Fate, req: Request)
    requires DeploysStaged(codec, req) && forall t: nat :: fate(t) == Fate({}, Fine)
    ensures Misled(codec, Run(codec, EmptyWorld(fate), [ApplyEvent(AsDryRun(req))]), req)
  {
    DryRunMisleads(codec, fate, req);
    hide Misled, Exec, EmptyWorld, DeploysStaged;
    var dry := ApplyEvent(AsDryRun(req));
    assert [] + [dry] == [dry];
    OneMore(codec, EmptyWorld(fate), [], dry);
  }

  lemma ConvergedAfter(codec: Codec, fate: nat -> Fate, req: Request)
    requires DeploysStaged(codec, req)
    requires Misled(codec, Run(codec, EmptyWorld(fate), [ApplyEvent(AsDryRun(req))]), req)
    ensures var v := Run(codec, EmptyWorld(fate), [ApplyEvent(AsDryRun(req)), ApplyEvent(req)]);
            Healthy(v) && Converged(codec, v.cloud, WithUri(InputOf(codec, req)), AgentsOf(codec, req), Prior(v))
  {
    var dry, apply := ApplyEvent(AsDryRun(req)), ApplyEvent(req);
    assert [dry] + [apply] == [dry, apply];
    hide Run, EmptyWorld, Healthy, Buildable, Converged, ApplyOf, Staged;
    MisledSkips(codec, Run(codec, EmptyWorld(fate), [dry]), req);
    RunsConverge(codec, fate, [dry], req);
  }

  lemma AstrayFrom(codec: Codec, v: World, req: Request, agent: string, platform: Env)
    requires DeploysStaged(codec, req) && agent in AgentsOf(codec, req) && Healthy(v)
    requires Converged(codec, v.cloud, WithUri(InputOf(codec, req)), AgentsOf(codec, req), Prior(v))
    requires !Readable(codec, v, InputOf(codec, req), agent, platform)
    ensures Astray(codec, v, req, agent, platform)
  {
    hide ParseSpec, Gathers, Buildable, ReadsPack, OwnCalls, OnlyUnknown, SaneCloud, BuiltEnv, WithUri;
    assert agent in Names(AgentsOf(codec, req));
  }
}
