/** When an apply uploads the pack, for every oracle, against what the plan announces. */
module Uploads {
  import opened Texts
  import opened AdapterState
  import opened Inputs
  import opened EngineSpecs
  import opened ControlPlane
  import opened Apply
  import opened ApplyTheorems
  import opened Runs
  import GcsUri
  import Plan
  import Provider

  // From c to d nothing was uploaded, and nothing forgotten.
  ghost predicate NoUpload(c: Cloud, d: Cloud) {
    c.log <= d.log && forall t :: |c.log| <= t < |d.log| ==> !d.log[t].Stage?
  }

  lemma NoUploadOn(c: Cloud, d: Cloud, e: Cloud)
    requires NoUpload(c, d) && NoUpload(d, e)
    ensures NoUpload(c, e)
  {}

  lemma PutUploadsNothing(c: Cloud, spec: EngineSpec, agent: string, prior: Engines)
    ensures NoUpload(c, PutEngine(c, spec, agent, prior).0)
  {}

  lemma {:induction false} AgentsUploadNothing(
    buildable: bool, specs: Specs, c: Cloud, agents: seq<string>, prior: Engines, next: State
  )
    ensures NoUpload(c, AgentsApplied(buildable, specs, c, agents, prior, next).cloud)
    decreases |agents|
  {
    if agents != [] {
      var (d, made) := OneApplied(buildable, specs, c, agents[0], prior);
      PutUploadsNothing(c, specs(agents[0]), agents[0], prior);
      hide PutEngine;
      if made.Some? {
        var next' := next.(engines := next.engines[agents[0] := EngineState(made.value, false)]);
        AgentsUploadNothing(buildable, specs, d, agents[1..], prior, next');
        NoUploadOn(c, d, AgentsApplied(buildable, specs, d, agents[1..], prior, next').cloud);
      }
    }
  }

  lemma {:induction false} DeletesUploadNothing(c: Cloud, names: seq<string>, next: State)
    requires forall n :: n in names ==> n in next.engines
    requires forall i, j | 0 <= i < j < |names| :: names[i] != names[j]
    ensures NoUpload(c, NamesDeleted(c, names, next).cloud)
    decreases |names|
  {
    if names != [] {
      var (d, r) := Deleting(c, next.engines[names[0]].name);
      if r.Ok? {
        assert forall n :: n in names[1..] ==> n in names && n != names[0];
        DeletesUploadNothing(d, names[1..], next.(engines := next.engines - {names[0]}));
      }
    }
  }

  lemma LoopsUploadNothing(codec: Codec, c: Cloud, input: EngineInput, agents: seq<string>, prior: State)
    requires Staged(c, input, prior).1.Ok?
    ensures NoUpload(Staged(c, input, prior).0, EnginesApplied(codec, c, input, agents, prior).cloud)
  {
    var d, ready := Staged(c, input, prior).0, WithUri(input);
    var mid := AppliedInParts(codec, c, input, agents, prior);
    hide EnginesApplied, Buildable, SpecsOf, Staged, StartState, WithUri;
    AgentsUploadNothing(Buildable(codec, ready), SpecsOf(codec, ready), d, agents, prior.engines,
                        StartState(ready, prior));
    hide AgentsApplied;
    if mid.err.None? {
      var removed := SortedNames(mid.state.engines.Keys - (set a | a in agents));
      SortedNamesDistinct(removed);
      DeletesUploadNothing(mid.cloud, removed, mid.state);
      hide NamesDeleted;
      NoUploadOn(d, mid.cloud, RemovedDeleted(mid.cloud, mid.state, set a | a in agents).cloud);
    }
  }

  // The apply's first call is this upload, and there is no other.
  ghost predicate UploadsOnce(c: Cloud, d: Cloud, uri: string) {
    && c.log < d.log && d.log[|c.log|] == Stage(uri)
    && forall t :: |c.log| < t < |d.log| ==> !d.log[t].Stage?
  }

  // For every oracle, an apply uploads the pack, first of all and once, exactly when it
  // does not travel inline, there is a bucket, and the stored URI is another one.
  lemma UploadsExactly(codec: Codec, c: Cloud, input: EngineInput, agents: seq<string>, prior: State)
    ensures var d := EnginesApplied(codec, c, input, agents, prior).cloud;
            if !input.delivery.inlined && input.cfg.stagingBucket != "" && prior.stagedPackUri != ExpectedUri(input)
            then UploadsOnce(c, d, ExpectedUri(input))
            else NoUpload(c, d)
  {
    var (d, staged) := Staged(c, input, prior);
    StagingUploads(c, input, prior);
    if staged.Ok? {
      LoopsUploadNothing(codec, c, input, agents, prior);
    }
    hide Staged, ExpectedUri;
    assert staged.Err? ==> EnginesApplied(codec, c, input, agents, prior).cloud == d;
    hide EnginesApplied;
  }

  lemma StagingUploads(c: Cloud, input: EngineInput, prior: State)
    ensures var d := Staged(c, input, prior).0;
            if !input.delivery.inlined && input.cfg.stagingBucket != "" && prior.stagedPackUri != ExpectedUri(input)
            then d.log == c.log + [Stage(ExpectedUri(input))]
            else d == c
  {
    hide GcsUri.SplitGcsUri, GcsUri.StagedPackUri;
  }

  // The size over which a request's pack does not travel inline.
  function LimitOf(cfg: Config): int {
    if cfg.packInlineLimitBytes > 0 then cfg.packInlineLimitBytes else 24576
  }

  ghost predicate Announces(codec: Codec, w: World, req: Request)
    requires Plannable(codec, w, req)
  {
    Plan.Change(Plan.PackObject, GcsUri.STAGED_PACK_NAME, Plan.CreateAction) in Provider.PlanOf(codec, w, req)
  }

  // For every world and request: the plan announces the upload exactly when the pack is
  // over the limit; the apply makes it exactly when, besides, that URI is not the one
  // stored. So they part exactly over a pack that is recorded as uploaded already.
  lemma PlanPredictsUpload(codec: Codec, w: World, req: Request)
    requires Plannable(codec, w, req) && Reaches(codec, w, req)
    ensures Announces(codec, w, req) <==> |req.packJson| > LimitOf(req.cfg)
    ensures var d, uri := Exec(codec, w, ApplyEvent(req)).cloud, ExpectedUri(InputOf(codec, req));
            if |req.packJson| > LimitOf(req.cfg) && Prior(w).stagedPackUri != uri then UploadsOnce(w.cloud, d, uri)
            else NoUpload(w.cloud, d)
  {
    UploadsExactly(codec, w.cloud, InputOf(codec, req), AgentsOf(codec, req), Prior(w));
    AnnouncesExactly(codec, w, req);
    hide EnginesApplied, ParseSpec, MarshalSpec, ValidStructure, Announces, AgentsOf;
  }

  lemma AnnouncesExactly(codec: Codec, w: World, req: Request)
    requires Plannable(codec, w, req)
    ensures Announces(codec, w, req) <==> |req.packJson| > LimitOf(req.cfg)
  {
    hide Plan.Planned, Plan.StateReconciled, ParseSpec, ValidStructure;
    var verified := Provider.Verified(w, req);
    Plan.PlanPackObject(Plan.PlanInput(
      SortedNames(AgentNames(codec.view(req.packJson).value)), verified.state, codec.hash(req.packJson),
      HashPlanConfig(codec, req.cfg, req.bindings, req.toolSpecs), DecidePackDelivery(req.packJson, req.cfg),
      verified.drift));
  }
}
