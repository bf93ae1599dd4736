/** The provider's operations as the CLI calls them (internal/vertex/provider.go,
    lifecycle.go): each reads the stored document and moves the deployment exactly as
    one event of a run does. */
module Provider {
  import opened Texts
  import opened AdapterState
  import opened Inputs
  import opened ControlPlane
  import opened Apply
  import opened Runs
  import Destroy
  import DryRun
  import Plan

  // What a plan is made from once the stored state has been verified, or not.
  ghost function Verified(w: World, req: Request): Plan.Reconciled
    requires ParseSpec(w.stored).Ok?
  {
    if req.cfg.dryRun then Plan.Reconciled(w.cloud, Prior(w), []) else Plan.StateReconciled(w.cloud, Prior(w))
  }

  ghost function PlanOf(codec: Codec, w: World, req: Request): seq<Plan.Change>
    requires Plannable(codec, w, req)
  {
    var verified := Verified(w, req);
    Plan.Planned(Plan.PlanInput(
      SortedNames(AgentNames(codec.view(req.packJson).value)), verified.state, codec.hash(req.packJson),
      HashPlanConfig(codec, req.cfg, req.bindings, req.toolSpecs), DecidePackDelivery(req.packJson, req.cfg),
      verified.drift))
  }

  // A plan and an apply both ask for a valid config, readable state and a pack with agents.
  // A plan asks for an llm binding and a route for the pack besides, an apply for the
  // pack's id and its agents' cards.
  lemma AcceptedExactly(codec: Codec, w: World, req: Request)
    ensures var shared := && ValidStructure(req.cfg) && ParseSpec(w.stored).Ok? && codec.view(req.packJson).Some?
                          && var view := codec.view(req.packJson).value;
                             view.prompts != {} || (view.agents.Some? && view.agents.value.members != {});
            && (Plannable(codec, w, req)
                <==> && shared && (exists i :: 0 <= i < |req.bindings| && req.bindings[i].role == "llm")
                     && (req.cfg.stagingBucket != "" || DecidePackDelivery(req.packJson, req.cfg).inlined))
            && (Reads(codec, w, req)
                <==> shared && codec.view(req.packJson).value.id != "" && codec.cards(req.packJson).Some?)
  {
    hide ValidStructure, ParseSpec, DecidePackDelivery;
  }

  // Nothing is looked up for a dry run or an empty state.
  method VerifiedPriorState(client: Client, cfg: Config, prior: State) returns (verified: State, drift: seq<string>)
    modifies client
    ensures Plan.Reconciled(client.View(), verified, drift)
            == if cfg.dryRun then Plan.Reconciled(old(client.View()), prior, [])
               else Plan.StateReconciled(old(client.View()), prior)
  {
    if cfg.dryRun {
      return prior, [];
    }
    verified, drift := Plan.ReconcilePriorState(client, prior);
  }

  method ProviderPlan(codec: Codec, client: Client, stored: Option<Document>, req: Request)
    returns (plan: Option<seq<Plan.Change>>)
    modifies client
    ensures World(client.View(), stored) == Exec(codec, World(old(client.View()), stored), PlanEvent(req))
    ensures plan.Some? <==> Plannable(codec, World(old(client.View()), stored), req)
    ensures req.cfg.dryRun ==> client.View() == old(client.View())
    ensures plan.Some? ==> plan.value == PlanOf(codec, World(old(client.View()), stored), req)
  {
    var errs := ValidateStructure(req.cfg);
    if errs != [] {
      return None;
    }
    var prior := Parse(stored);
    if prior.Err? {
      return None;
    }
    var binding := PrimaryBinding(req.bindings);
    if binding.None? {
      return None;
    }
    var configHash := HashPlanConfig(codec, req.cfg, req.bindings, req.toolSpecs);
    var agents := EnumerateAgents(codec, req.packJson);
    if agents.None? {
      return None;
    }
    var delivery := DecidePackDelivery(req.packJson, req.cfg);
    if !ValidPackDelivery(delivery, req.cfg) {
      return None;
    }
    var verified, drift := VerifiedPriorState(client, req.cfg, prior.value);
    var changes := Plan.BuildPlan(
      Plan.PlanInput(agents.value, verified, codec.hash(req.packJson), configHash, delivery, drift));
    plan := Some(changes);
  }

  datatype ProviderError = Unreadable | ApplyFailed(cause: ApplyError)

  // A document to store comes back even when the apply failed part-way; none does when
  // the request or the stored state cannot be read, and that is an error of its own.
  method ProviderApply(codec: Codec, client: Client, stored: Option<Document>, req: Request)
    returns (state: Option<Document>, err: Option<ProviderError>)
    modifies client
    ensures state.Some? <==> Reads(codec, World(old(client.View()), stored), req)
    ensures state.None? <==> err == Some(Unreadable)
    ensures World(client.View(), if state.Some? then state else stored)
            == Exec(codec, World(old(client.View()), stored), ApplyEvent(req))
    ensures state.Some? ==> err == Reported(ApplyOf(codec, World(old(client.View()), stored), req).err)
  {
    var prior := Parse(stored);
    if prior.Err? {
      return None, Some(Unreadable);
    }
    var gathered := GatherApplyInput(codec, req);
    if gathered.None? {
      return None, Some(Unreadable);
    }
    var input, agents := gathered.value.input, gathered.value.agents;
    var next: State, failed;
    if req.cfg.dryRun {
      next, failed := DryRun.ApplyDryRun(codec, client, input, agents, prior.value);
    } else {
      next, failed := ApplyEngines(codec, client, input, agents, prior.value);
    }
    var doc := Marshal(next);
    state, err := Some(doc), Reported(failed);
  }

  function Reported(err: Option<ApplyError>): Option<ProviderError> {
    if err.None? then None else Some(ApplyFailed(err.value))
  }

  // The CLI forgets the document only when nil comes back, and need not even then.
  method ProviderDestroy(client: Client, stored: Option<Document>, dryRun: bool, fails: Destroy.Callback)
    returns (read: bool, err: Option<string>)
    modifies client
    ensures read <==> ParseSpec(stored).Ok?
    ensures read ==> err == DestroyOf(World(old(client.View()), stored), dryRun, fails).err
    ensures forall codec, forget: bool ::
              World(client.View(), if read && forget && err.None? then None else stored)
              == Exec(codec, World(old(client.View()), stored), DestroyEvent(dryRun, fails, forget))
  {
    var prior := Parse(stored);
    if prior.Err? {
      return false, None;
    }
    read := true;
    var sent, hungUp;
    if dryRun {
      err, sent, hungUp := DryRun.DestroyDryRun(client, prior.value, fails);
    } else {
      err, sent, hungUp := Destroy.DestroyAll(client, prior.value, fails);
    }
  }
}
