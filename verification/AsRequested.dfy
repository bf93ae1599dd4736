/** What an apply that worked leaves running, in terms of the request alone. */
module AsRequested {
  import opened Texts
  import opened AdapterState
  import opened Inputs
  import opened EngineSpecs
  import opened ControlPlane
  import opened Apply
  import opened ApplyFacts
  import opened ApplyTheorems
  import opened Convergence
  import opened NoChangeSoundness
  import opened Runtime
  import opened Runs
  import LabelMaps

  // The agents a pack asks for: the members of an agents section that has any, and
  // otherwise the prompts.
  ghost predicate AsksFor(codec: Codec, req: Request, agent: string) {
    && codec.view(req.packJson).Some?
    && var view := codec.view(req.packJson).value;
       if view.agents.Some? && view.agents.value.members != {} then agent in view.agents.value.members
       else agent in view.prompts
  }

  lemma AgentsAsked(codec: Codec, req: Request)
    requires Gathers(codec, req)
    ensures forall a :: a in AgentsOf(codec, req) <==> AsksFor(codec, req, a)
  {
    hide ValidStructure;
  }

  lemma InputCarries(codec: Codec, req: Request)
    requires Gathers(codec, req)
    ensures Carries(codec, req, InputOf(codec, req))
  {
    hide ValidStructure;
  }

  // The operator's variables are all there; the collector endpoint alone gives way to
  // that of the tracing section.
  ghost predicate KeepsVariables(cfg: Config, env: Env) {
    forall k :: k in cfg.env && !(k.OtlpEndpoint? && Traced(cfg)) ==> k in env && env[k] == cfg.env[k]
  }

  lemma BuiltKeepsVariables(codec: Codec, input: EngineInput, agent: string)
    requires EnvBuildable(input)
    ensures KeepsVariables(input.cfg, BuiltEnv(codec, input, agent))
  {
    forall k | k in input.cfg.env && !(k.OtlpEndpoint? && Traced(input.cfg))
      ensures k in BuiltEnv(codec, input, agent) && BuiltEnv(codec, input, agent)[k] == input.cfg.env[k]
    {
      assert !ReservedName(k);
      BuiltEnvLookup(codec, input, agent, k);
    }
  }

  // What a container of this environment is configured with.
  ghost predicate ConfiguredFor(codec: Codec, env: Env, req: Request, agent: string) {
    && ConfigOf(env).Ok?
    && var cfg := ConfigOf(env).value;
       && cfg.agentName == agent && cfg.project == req.cfg.project && cfg.location == req.cfg.location
       && cfg.providersJson == codec.bindingsText(req.bindings) && cfg.toolSpecsJson == req.toolSpecs
       && (cfg.tracingEnabled <==> req.cfg.observability.Some? && req.cfg.observability.value.tracingEnabled)
  }

  lemma BuiltConfigures(codec: Codec, req: Request, agent: string, platform: Env)
    requires WellBehaved(codec) && Gathers(codec, req) && EnvBuildable(WithUri(InputOf(codec, req)))
    requires NoReservedNames(platform)
    ensures ConfiguredFor(codec, BuiltEnv(codec, WithUri(InputOf(codec, req)), agent) + platform, req, agent)
  {
    var input := WithUri(InputOf(codec, req));
    assert req.packJson != "" && req.cfg.project != "" && req.cfg.location != "";
    ContainerReadsInputs(codec, input, agent, platform);
    hide BuiltEnv, ConfigOf, EnvBuildable, Gathers, WellBehaved;
  }

  // This engine is what the request asks for this agent.
  ghost predicate RunsAsRequested(codec: Codec, req: Request, agent: string, spec: EngineSpec)
    requires Gathers(codec, req)
  {
    && Carries(codec, req, InputOf(codec, req)) && AsAsked(InputOf(codec, req), agent, spec)
    && LabelledFor(codec, req, agent, spec.labels) && KeepsVariables(req.cfg, spec.env)
    && forall platform :: NoReservedNames(platform) ==> ConfiguredFor(codec, spec.env + platform, req, agent)
  }

  ghost predicate LabelledFor(codec: Codec, req: Request, agent: string, labels: map<string, string>) {
    && codec.view(req.packJson).Some?
    && LabelMaps.LABEL_PACK in labels
    && labels[LabelMaps.LABEL_PACK] == codec.labels.value(codec.view(req.packJson).value.id)
    && LabelMaps.LABEL_AGENT in labels && labels[LabelMaps.LABEL_AGENT] == codec.labels.value(agent)
    && forall k :: k in req.cfg.labels && codec.labels.key(k) !in LabelMaps.MANAGED_KEYS
                   ==> codec.labels.key(k) in labels
                       && labels[codec.labels.key(k)] == codec.labels.value(req.cfg.labels[k])
  }

  lemma BuiltLabelled(codec: Codec, req: Request, agent: string)
    requires Gathers(codec, req) && LabelMaps.CleanLabels(codec.labels, req.cfg.labels)
    ensures LabelledFor(codec, req, agent, BuiltSpec(codec, WithUri(InputOf(codec, req)), agent).labels)
  {
    LabelMaps.BuiltLabelsContent(codec.labels, req.cfg.labels, codec.view(req.packJson).value.id, agent);
    hide LabelMaps.CleanLabels, LabelMaps.BuiltLabels, ValidStructure, BuiltEnv;
  }

  lemma BuiltAsRequested(codec: Codec, req: Request, agent: string)
    requires WellBehaved(codec) && Gathers(codec, req) && Buildable(codec, WithUri(InputOf(codec, req)))
    ensures RunsAsRequested(codec, req, agent, BuiltSpec(codec, WithUri(InputOf(codec, req)), agent))
  {
    var input := WithUri(InputOf(codec, req));
    InputCarries(codec, req);
    BuiltAsAsked(codec, input, agent);
    BuiltLabelled(codec, req, agent);
    BuiltKeepsVariables(codec, input, agent);
    hide Gathers, LabelledFor, KeepsVariables, ConfiguredFor, BuiltEnv, WellBehaved, LabelMaps.CleanLabels;
    forall platform | NoReservedNames(platform)
      ensures ConfiguredFor(codec, BuiltEnv(codec, input, agent) + platform, req, agent)
    {
      BuiltConfigures(codec, req, agent, platform);
    }
  }

  // After an apply that worked, at the end of any run and with no fault left: the agents
  // recorded are exactly those the pack asks for, and each one's engine is live and is
  // what the request asks for.
  ghost predicate AllAsRequested(codec: Codec, v: World, req: Request)
    requires Gathers(codec, req) && ParseSpec(v.stored).Ok?
  {
    forall a :: && (a in Prior(v).engines <==> AsksFor(codec, req, a))
                && (a in Prior(v).engines
                    ==> && Prior(v).engines[a].name in v.cloud.engines
                        && RunsAsRequested(codec, req, a, v.cloud.engines[Prior(v).engines[a].name]))
  }

  lemma AppliedAsRequested(codec: Codec, fate: nat -> Fate, events: seq<Event>, req: Request)
    requires WellBehaved(codec)
    requires var w := Run(codec, EmptyWorld(fate), events);
             Calm(w.cloud) && Reaches(codec, w, req) && ApplyOf(codec, w, req).err.None?
    ensures var v := Run(codec, EmptyWorld(fate), events + [ApplyEvent(req)]);
            ParseSpec(v.stored).Ok? && AllAsRequested(codec, v, req)
  {
    var v := Run(codec, EmptyWorld(fate), events + [ApplyEvent(req)]);
    hide Run, EmptyWorld, ApplyOf, Converged, Calm, Buildable, AllAsRequested, WellBehaved, Gathers;
    RunsConverge(codec, fate, events, req);
    hide Stageable;
    ConvergedAsRequested(codec, v, req);
  }

  lemma ConvergedAsRequested(codec: Codec, v: World, req: Request)
    requires WellBehaved(codec) && Gathers(codec, req) && ParseSpec(v.stored).Ok?
    requires Buildable(codec, WithUri(InputOf(codec, req)))
    requires Converged(codec, v.cloud, WithUri(InputOf(codec, req)), AgentsOf(codec, req), Prior(v))
    ensures AllAsRequested(codec, v, req)
  {
    hide BuiltSpec, Buildable, WellBehaved, Gathers, ParseSpec, AsksFor, RunsAsRequested, Converged;
    forall a
      ensures a in Prior(v).engines <==> AsksFor(codec, req, a)
      ensures a in Prior(v).engines
              ==> && Prior(v).engines[a].name in v.cloud.engines
                  && RunsAsRequested(codec, req, a, v.cloud.engines[Prior(v).engines[a].name])
    {
      OneConverged(codec, v, req, a);
    }
  }

  lemma OneConverged(codec: Codec, v: World, req: Request, a: string)
    requires WellBehaved(codec) && Gathers(codec, req) && ParseSpec(v.stored).Ok?
    requires Buildable(codec, WithUri(InputOf(codec, req)))
    requires Converged(codec, v.cloud, WithUri(InputOf(codec, req)), AgentsOf(codec, req), Prior(v))
    ensures a in Prior(v).engines <==> AsksFor(codec, req, a)
    ensures a in Prior(v).engines
            ==> && Prior(v).engines[a].name in v.cloud.engines
                && RunsAsRequested(codec, req, a, v.cloud.engines[Prior(v).engines[a].name])
  {
    hide Buildable, WellBehaved, Gathers, ParseSpec, AsksFor, RunsAsRequested, BuiltSpec, InputOf, WithUri,
         AgentsOf;
    AgentsAsked(codec, req);
    assert a in Prior(v).engines <==> a in Names(AgentsOf(codec, req));
    if a in Prior(v).engines {
      BuiltAsRequested(codec, req, a);
    }
  }
}
