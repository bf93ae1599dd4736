/** Requests written out, both of which a plan and an apply accept, and runs over them in
    which a plan is wrong. */
module Witnesses {
  import opened Texts
  import opened AdapterState
  import opened Inputs
  import opened EngineSpecs
  import opened ControlPlane
  import opened Apply
  import opened Convergence
  import opened ApplyTheorems
  import opened NoChangeSoundness
  import opened Runs
  import opened MissedChanges
  import LabelMaps
  import Labels

  const PACK := "pack"
  const BUCKET := "gs://bucket"
  const ROOMY := DEFAULT_PACK_INLINE_LIMIT_BYTES
  const OTHER_IMAGE := "image:2"

  // A config of the required fields, tracing off and no scaling.
  function PlainConfig(image: string, env: Env, limit: int): Config {
    Config("project", "location", BUCKET, IMAGE_MODE_PREBUILT, image, "", None, None, None, None, env, map[], limit,
           false, None)
  }

  function PlainRequest(image: string, env: Env, limit: int): Request {
    Request(PACK, PlainConfig(image, env, limit), [Binding(DEFAULT_BINDING_NAME, ROLE_LLM, "", "", "")], "")
  }

  // A reader of that pack whose hash tells the image OTHER_IMAGE from any other.
  function PlainCodec(prompts: set<string>, lower: Labels.Lowering): Codec {
    Codec(
      packJson => if packJson == "" then None else Some(PackView("id", prompts, None)),
      packJson => Some(map[]),
      text => if text == OTHER_IMAGE then "2" else "1",
      (fingerprint: Fingerprint) => fingerprint.image,
      bindings => "[]",
      LabelMaps.GcpSanitizer(lower))
  }

  lemma PlainIsAccepted(prompts: set<string>, lower: Labels.Lowering, image: string, env: Env, limit: int)
    requires prompts != {} && image != ""
    ensures var codec, req := PlainCodec(prompts, lower), PlainRequest(image, env, limit);
            WellBehaved(codec) && Gathers(codec, req) && HasLlm(req.bindings) && !req.cfg.dryRun
  {
    var req := PlainRequest(image, env, limit);
    assert ValidStructure(req.cfg);
    assert req.bindings[0].role == ROLE_LLM;
  }

  // Nothing in it is reserved and its pack is within the limit.
  lemma PlainDeploys(prompts: set<string>, lower: Labels.Lowering, image: string, env: Env)
    requires prompts != {} && image != "" && NoReservedNames(env)
    ensures Deploys(PlainCodec(prompts, lower), PlainRequest(image, env, ROOMY))
  {
    var codec, req := PlainCodec(prompts, lower), PlainRequest(image, env, ROOMY);
    PlainIsAccepted(prompts, lower, image, env, ROOMY);
    assert |PACK| == 4;
    assert |req.cfg.labels| == 0;
    assert LabelMaps.CleanLabels(codec.labels, req.cfg.labels);
  }

  lemma PlainAgents(names: seq<string>, lower: Labels.Lowering, image: string, env: Env, limit: int)
    requires names != [] && image != "" && Ascending(names)
    ensures var codec, req := PlainCodec(Named(names), lower), PlainRequest(image, env, limit);
            Gathers(codec, req) && AgentsOf(codec, req) == names
  {
    var prompts := Named(names);
    var codec, req := PlainCodec(prompts, lower), PlainRequest(image, env, limit);
    assert names[0] in prompts;
    PlainIsAccepted(prompts, lower, image, env, limit);
    assert AgentNames(codec.view(req.packJson).value) == prompts by {
      assert PACK != "";
    }
    hide Gathers;
    ListingUnique(AgentsOf(codec, req), names, prompts);
  }

  function Named(names: seq<string>): set<string> {
    set n | n in names
  }

  // A request for one agent, as a run that meets the bound on orphans repeats it.
  lemma OneAgentHappens(lower: Labels.Lowering)
    ensures OneAgent(PlainCodec(Named(["a"]), lower), PlainRequest("image:1", map[], ROOMY))
  {
    assert "a" in Named(["a"]);
    PlainAgents(["a"], lower, "image:1", map[], ROOMY);
    PlainDeploys(Named(["a"]), lower, "image:1", map[]);
    hide PlainCodec, PlainRequest, Gathers, Buildable, AgentsOf, Named;
  }

  // ---- After a failed update ----

  function OneFault(k: nat): nat -> Fate {
    t => Fate({}, if t == k then FailEarly else Fine)
  }

  // The apply of the newer request has just failed, the second agent's engine runs the
  // older one's spec, and the plan of the newer one says "no change" of it.
  ghost predicate StaleRun(codec: Codec, older: Request, newer: Request)
    requires Gathers(codec, older) && Gathers(codec, newer) && |AgentsOf(codec, older)| == 2
  {
    var start, second := EmptyWorld(OneFault(2)), AgentsOf(codec, older)[1];
    && FailsAtAgent(codec, Run(codec, start, [ApplyEvent(older)]), ApplyEvent(newer))
    && SaysNoChange(codec, Run(codec, start, [ApplyEvent(older), ApplyEvent(newer)]), newer, second,
                    SpecFor(codec, older, second))
    && SpecFor(codec, older, second) != SpecFor(codec, newer, second)
  }

  lemma StaleFrom(codec: Codec, older: Request, newer: Request)
    requires Deploys(codec, older) && Deploys(codec, newer) && older.packJson == newer.packJson
    requires |AgentsOf(codec, older)| == 2 && older.cfg.image != newer.cfg.image
    ensures StaleRun(codec, older, newer)
  {
    var agents := AgentsOf(codec, older);
    SortedNamesDistinct(agents);
    assert FailsOnlyAt(OneFault(2), |agents|);
    assert Gathers(codec, older) && Gathers(codec, newer);
    hide Deploys, Gathers, AgentsOf, OneFault, FailsOnlyAt, SpecFor, Run, EmptyWorld, FailsAtAgent, SaysNoChange;
    ImagesDiffer(codec, older, newer, agents[1]);
    FailedUpdateIsMissed(codec, OneFault(2), older, newer, agents[1]);
  }

  lemma PlainTellsApart(prompts: set<string>, lower: Labels.Lowering)
    ensures var older, newer := PlainRequest("image:1", map[], ROOMY), PlainRequest(OTHER_IMAGE, map[], ROOMY);
            WellBehaved(PlainCodec(prompts, lower)) && TellsApart(PlainCodec(prompts, lower), older, newer)
    ensures "image:1" != OTHER_IMAGE
  {}

  // Two requests differing in the image, two agents and one call that fails are enough.
  lemma StaleAnswerHappens(lower: Labels.Lowering)
    ensures var codec := PlainCodec(Named(["a", "b"]), lower);
            var older, newer := PlainRequest("image:1", map[], ROOMY), PlainRequest(OTHER_IMAGE, map[], ROOMY);
            && WellBehaved(codec) && Deploys(codec, older) && Deploys(codec, newer) && TellsApart(codec, older, newer)
            && AgentsOf(codec, older) == ["a", "b"] && StaleRun(codec, older, newer)
  {
    hide PlainCodec, WellBehaved, TellsApart, StaleRun, AgentsOf, Buildable, Gathers, ValidStructure;
    var codec := PlainCodec(Named(["a", "b"]), lower);
    var older, newer := PlainRequest("image:1", map[], ROOMY), PlainRequest(OTHER_IMAGE, map[], ROOMY);
    PlainTellsApart(Named(["a", "b"]), lower);
    assert Less("a", "b") && "a" in Named(["a", "b"]);
    assert Ascending(["a", "b"]);
    PlainAgents(["a", "b"], lower, "image:1", map[], ROOMY);
    PlainDeploys(Named(["a", "b"]), lower, "image:1", map[]);
    PlainDeploys(Named(["a", "b"]), lower, OTHER_IMAGE, map[]);
    hide Deploys, Named;
    StaleFrom(codec, older, newer);
  }

  lemma ImagesDiffer(codec: Codec, p: Request, q: Request, agent: string)
    requires Gathers(codec, p) && Gathers(codec, q) && p.cfg.image != q.cfg.image
    ensures SpecFor(codec, p, agent) != SpecFor(codec, q, agent)
  {
    hide Gathers, BuiltEnv;
  }

  // ---- A change outside the fingerprint ----

  function NoFault(): nat -> Fate {
    t => Fate({}, Fine)
  }

  // With the older request deployed and no fault at all, the plan of the newer one says
  // "no change" of this agent, and a spec for it can be built that is another one.
  ghost predicate MissedChange(codec: Codec, before: Request, after: Request, agent: string)
    requires Gathers(codec, before) && Gathers(codec, after)
  {
    && SaysNoChange(codec, Run(codec, EmptyWorld(NoFault()), [ApplyEvent(before)]), after, agent,
                    SpecFor(codec, before, agent))
    && Buildable(codec, WithUri(InputOf(codec, after)))
    && SpecFor(codec, before, agent) != SpecFor(codec, after, agent)
  }

  lemma FirstWorks(codec: Codec, before: Request)
    requires Deploys(codec, before)
    ensures var start := EmptyWorld(NoFault());
            && Calm(start.cloud) && Reaches(codec, start, before) && ApplyOf(codec, start, before).err.None?
  {
    var start := EmptyWorld(NoFault());
    EmptyIsHealthy(NoFault());
    assert Calm(start.cloud) && Reaches(codec, start, before) && InputOf(codec, before).delivery.inlined;
    hide EmptyWorld, NoFault, Buildable, EnginesApplied, Gathers, InputOf, AgentsOf, ParseSpec, Calm;
    var input := InputOf(codec, before);
    ApplyConverges(codec, start.cloud, input, AgentsOf(codec, before), Prior(start));
    assert Staged(start.cloud, input, Prior(start)).1.Ok?;
    ReadyHasUri(start.cloud, input, Prior(start));
  }

  lemma FirstPlans(codec: Codec, before: Request, after: Request)
    requires Gathers(codec, after) && HasLlm(after.bindings)
    requires ValidPackDelivery(DecidePackDelivery(after.packJson, after.cfg), after.cfg)
    ensures Plannable(codec, Run(codec, EmptyWorld(NoFault()), [ApplyEvent(before)]), after)
  {
    hide Run, EmptyWorld, NoFault, ValidStructure;
    OrphansBounded(codec, NoFault(), [ApplyEvent(before)]);
  }

  lemma AfterFirst(codec: Codec, before: Request)
    requires Deploys(codec, before)
    ensures DeployedCleanly(codec, Run(codec, EmptyWorld(NoFault()), [ApplyEvent(before)]), before)
  {
    FirstWorks(codec, before);
    EmptyIsHealthy(NoFault());
    hide Deploys, EmptyWorld, NoFault, Exec, Calm, Healthy, Reaches, ApplyOf, DeployedCleanly;
    DeploysCleanly(codec, EmptyWorld(NoFault()), before);
    RunOne(codec, EmptyWorld(NoFault()), ApplyEvent(before));
    hide Run;
  }

  // For all requests with equal hashes: the change is missed whenever the operator's
  // variables or the pack's route differ.
  lemma UnhashedIsMissed(codec: Codec, before: Request, after: Request, agent: string)
    requires Deploys(codec, before) && Gathers(codec, after) && HasLlm(after.bindings) && SameHashed(before, after)
    requires ValidPackDelivery(DecidePackDelivery(after.packJson, after.cfg), after.cfg)
    requires Buildable(codec, WithUri(InputOf(codec, after))) && agent in AgentsOf(codec, before)
    requires !SameUnhashed(WithUri(InputOf(codec, before)), WithUri(InputOf(codec, after)))
    ensures MissedChange(codec, before, after, agent)
  {
    assert agent in AgentNames(codec.view(after.packJson).value) && TellsApart(codec, before, after);
    assert NoReservedNames(after.cfg.env) && Buildable(codec, WithUri(InputOf(codec, before)));
    hide Gathers, AgentsOf, Buildable, SameUnhashed, TellsApart, BuiltSpec, Run, EmptyWorld, HasLlm,
         ConfigFingerprint;
    AfterFirst(codec, before);
    FirstPlans(codec, before, after);
    EqualHashesDecide(codec, before, after, agent);
    hide Deploys, NoFault, Plannable, DeployedCleanly, SaysNoChange, SameHashed, InputOf;
    CleanlyNoChange(codec, Run(codec, EmptyWorld(NoFault()), [ApplyEvent(before)]), before, after, agent);
  }

  // One more operator variable is enough.
  lemma OperatorVariableIsMissed(lower: Labels.Lowering)
    ensures var codec := PlainCodec(Named(["a"]), lower);
            var env := map[Plain("KEY") := "1"];
            var before, after := PlainRequest("image:1", map[], ROOMY), PlainRequest("image:1", env, ROOMY);
            Deploys(codec, before) && Deploys(codec, after) && MissedChange(codec, before, after, "a")
  {
    var codec, env := PlainCodec(Named(["a"]), lower), map[Plain("KEY") := "1"];
    assert "a" in Named(["a"]);
    PlainAgents(["a"], lower, "image:1", map[], ROOMY);
    PlainDeploys(Named(["a"]), lower, "image:1", map[]);
    PlainDeploys(Named(["a"]), lower, "image:1", env);
    hide PlainCodec, AgentsOf, Named, Buildable, Gathers, MissedChange;
    VariableIsUnhashed(codec, env);
    hide PlainRequest;
    UnhashedIsMissed(codec, PlainRequest("image:1", map[], ROOMY), PlainRequest("image:1", env, ROOMY), "a");
  }

  lemma VariableIsUnhashed(codec: Codec, env: Env)
    requires Gathers(codec, PlainRequest("image:1", map[], ROOMY))
    requires Gathers(codec, PlainRequest("image:1", env, ROOMY))
    requires env != map[]
    ensures var before, after := PlainRequest("image:1", map[], ROOMY), PlainRequest("image:1", env, ROOMY);
            && SameHashed(before, after)
            && !SameUnhashed(WithUri(InputOf(codec, before)), WithUri(InputOf(codec, after)))
  {
    hide Gathers;
    assert EffectiveEnv(PlainConfig("image:1", env, ROOMY)) == env;
    assert EffectiveEnv(PlainConfig("image:1", map[], ROOMY)) == map[];
  }

  // So is a lower limit, by which the pack no longer travels inline.
  lemma InlineLimitIsMissed(lower: Labels.Lowering)
    ensures var codec := PlainCodec(Named(["a"]), lower);
            var before, after := PlainRequest("image:1", map[], ROOMY), PlainRequest("image:1", map[], 1);
            && Deploys(codec, before) && Gathers(codec, after) && HasLlm(after.bindings)
            && MissedChange(codec, before, after, "a")
  {
    var codec := PlainCodec(Named(["a"]), lower);
    assert "a" in Named(["a"]);
    PlainAgents(["a"], lower, "image:1", map[], ROOMY);
    PlainDeploys(Named(["a"]), lower, "image:1", map[]);
    PlainIsAccepted(Named(["a"]), lower, "image:1", map[], 1);
    hide PlainCodec, AgentsOf, Named, Buildable, Gathers, MissedChange;
    RouteIsUnhashed(codec);
    hide PlainRequest;
    UnhashedIsMissed(codec, PlainRequest("image:1", map[], ROOMY), PlainRequest("image:1", map[], 1), "a");
  }

  lemma RouteIsUnhashed(codec: Codec)
    requires WellBehaved(codec) && Deploys(codec, PlainRequest("image:1", map[], ROOMY))
    requires Gathers(codec, PlainRequest("image:1", map[], 1))
    ensures var before, after := PlainRequest("image:1", map[], ROOMY), PlainRequest("image:1", map[], 1);
            && SameHashed(before, after)
            && ValidPackDelivery(DecidePackDelivery(after.packJson, after.cfg), after.cfg)
            && Buildable(codec, WithUri(InputOf(codec, after)))
            && !SameUnhashed(WithUri(InputOf(codec, before)), WithUri(InputOf(codec, after)))
  {
    hide Gathers, LabelMaps.CleanLabels;
    assert |PACK| == 4 && BUCKET != "" && codec.hash(PACK) != "";
    var after := PlainRequest("image:1", map[], 1);
    assert !InputOf(codec, after).delivery.inlined;
    var p, q := WithUri(InputOf(codec, PlainRequest("image:1", map[], ROOMY))), WithUri(InputOf(codec, after));
    assert PackJson in PackEnv(p) && PackJson !in PackEnv(q);
  }
}
