# Verified model of the Vertex deploy adapter and its runtime

A Dafny 4.11 model of the two programs in the repository and of what they promise
each other: the deploy adapter under `internal/vertex`, which drives a remote control
plane from a small stored state, and the runtime under `cmd/vertex-runtime`, which the
engines it creates run.

Check the whole project with `dafny verify dfyconfig.toml`.

## How it is laid out

| files | what they hold |
|---|---|
| Texts, GcsUri, Labels, LabelMaps | results, sorted name listings, the `gs://` grammar read by both programs, label sanitizing and merging |
| AdapterState, Inputs, EngineSpecs | the stored state and its document, what a deployment reads, and the spec one engine should run |
| ControlPlane, Apply, Plan, Destroy, DryRun, Provider | the remote side as a class with a fault oracle, and the adapter's operations on it, written as the loops they are and proved equal to specification functions |
| ApplyFacts, ApplyTheorems, OrphanCauses, Convergence, Prediction, NoChangeSoundness | one operation: exact partial-failure states, exactly what it leaves unrecorded, convergence, plan against apply, when "no change" is true |
| Runs, AsRequested, Uploads, MissedChanges, Runtime, Delivery, Witnesses | whole runs of any operations and outside events, what they leave running in the request's own terms, when the pack is uploaded, runs after which a plan is wrong, what a container started from any engine of a run reads, and requests written out |
| SessionStore, SessionFacts, SessionRace, RaceSchedules | the conversation store over append-only logs, alone and with N concurrent first writers |
| StreamHandoff, StreamTexts, StreamEnds | the streaming hand-off as a two-process protocol, what it says of a turn's chunks, and its two ends as loops |

Operations that change something are methods of a class or on one (`Client`,
`SessionService`, `Disk`, `ResponseWriter`); each is proved to do exactly what a function
of the same behaviour says, and the theorems are about those functions.

## What the model assumes

- The control plane is the contract of `gcpClient` (internal/vertex/client.go:55-79). An
  oracle decides at every call whether it works, fails before taking effect or fails
  after it, and which engines disappear out of band just before it. Names are handed out
  in order and never reused; a resource name is a number, and zero is the empty name.
- One control plane serves every request of a run: all name the same project and location,
  or their engines answer at the same endpoint. Between operations, engines may disappear,
  somebody else may create one, and somebody else may change the buckets in any way.
- JSON decoding, the pack's views, agent cards, the encodings that are hashed and the hash
  itself enter through `Codec`. A digest is non-empty and slash-free and the empty text is
  no pack (`WellBehaved`). Delivery over a run assumes that the hash separates the packs
  of that run (`Separates`), and "no change" that it separates the two requests compared
  (`TellsApart`).
- A character of a pack, of a document or of a stored object is one byte, so the length of
  a pack is the size its limit is about; a character of a label is one rune.
- Lower-casing is any character mapping that fixes lower-case letters, digits, `-` and `_`.
- Besides what the adapter sets, a container's platform may set any variable but the
  reserved ones.
- Environment names are a datatype: one constructor for each name either program gives a
  meaning to, one for any other name under the reserved prefix, and one for the rest.
- `adaptersdk.ReconcilePriorState` is modelled by the contract stated at
  internal/vertex/reconcile.go:13-21. The model's stream of a turn is any finite sequence
  of text, other and error chunks.
- Between operations the CLI keeps the document an operation returned, a dry run's too.
  When an operation returns none, it keeps the one it had; after a destroy that returned
  nil it may forget it.
- The names a dry run makes up belong to no engine, now or later: they are modelled as
  names the control plane skips.
- In the store's own model another writer's create may come first, just before a create or
  while it is waited for. In the race the server settles an accepted create at any later
  moment, and may refuse another one as already existing before that, or once the session
  is there.

## What the code does that its documentation does not say

- Nothing records an in-flight engine: docs/src/content/docs/explanation/resource-lifecycle.md:39-42
  says an unfinished create is recorded, but a failed create or update drops the agent's
  record (internal/vertex/apply.go:130-134). `FailedUpdateOrphans` shows the engine left
  behind, `NewOrphansExactly` which engines an apply leaves so, `OrphansBounded` how many
  there can be, and `BoundIsReached` that no smaller number would do.
- The new hashes are stored even when an apply fails (internal/vertex/apply.go:113-114), so
  the next plan reports no change for agents the apply never reached.
  `NoChangeAfterAnyStop` gives, wherever an apply stopped, exactly which of these answers
  are true; `FailedUpdateIsMissed` shows it over runs, and `StaleAnswerHappens` is a run of
  two accepted requests with a false one.
- The operator's variables and the way the pack travels are not in the fingerprint
  (internal/vertex/hash.go:30-44). `NoChangeIsSound` gives the exact condition under which
  "no change" is nevertheless true, `NoChangeExactlyWhen` says after any run when a plan
  answers so, and `OperatorVariableIsMissed` and `InlineLimitIsMissed` are requests for
  which it is wrong.
- The label limit is checked before the three managed labels are added: `LimitCanBePassed`
  has 62 clean labels that become 65.
- Unwrapping an error that wraps two others yields nil (internal/vertex/lifecycle.go:92,116):
  a destroy whose callback fails stops and reports success. `HungUpDestroyLooksClean` says
  when, in terms of the callback, and `NilMeansDeleted` when a caller can believe nil.
- A plan checks neither that the spec can be built nor that its bucket can be addressed
  (internal/vertex/provider.go:82-140), so it may promise creates an apply cannot make
  (`ReservedVariableIsPlanned`); on a live deployment such an apply even orphans the first
  agent's engine without a call (`UnbuildableOrphans`). And a plan keeps a record that is
  in flight or nameless even with no engine behind it, where apply creates one.
  `PlanPredictsApply` says of every request exactly where plan and apply agree.
- A plan announces the upload of every pack over the limit (internal/vertex/plan.go:45-52),
  also of one whose URI is stored and which apply therefore skips
  (internal/vertex/staging.go:56-58). `PlanPredictsUpload` says of every request when each
  happens.
- A plan refuses a request without an `llm` binding (internal/vertex/provider.go:103-105);
  an apply does not.
- docs/src/content/docs/how-to/dry-run.md:63-66 warns against carrying a dry run's state
  into a real apply because made-up engines would be updated. It does more harm than that:
  every real engine the state recorded is left behind (`DryRunLetsGo`), and a pack that has
  to be staged is taken to be staged already, so the new engines cannot read it
  (`DryRunHidesPack`). A dry-run destroy reports success and deletes nothing
  (`DryDestroyLooksClean`).
- The comment at cmd/vertex-runtime/sessionstore.go:249-254 takes a refused create to mean
  that the session exists. A writer refused while another's create is still pending appends
  to a session that is not there and fails (`RefusedTooEarlyLoses`). `LosersExactly` says
  which writers of a schedule do.
- A save skips as many raw messages as there are stored ones
  (cmd/vertex-runtime/sessionstore.go:187-190), although storing drops messages it cannot
  represent. `SaveExact` and `SecondSaveQuiet` give the exact conditions under which a save
  does what it says, `SaveDuplicates` a failing input.

## Model

| member | source | states |
|---|---|---|
| GcsUri.SplitExactly | internal/vertex/staging.go:96-106 | the adapter's reader and the runtime's reader each yield (bucket, object) exactly on `gs://bucket/object` with a non-empty slash-free bucket and a non-empty object, so they accept the same strings with the same halves |
| GcsUri.SplitInvertsStagedPackUri | internal/vertex/staging.go:19-32 | splitting a built URI gives back the bucket's name and the object, however many slashes trail the bucket |
| GcsUri.StagedPackUriInjective | internal/vertex/staging.go:19-32 | two packs' URIs are equal only for equal hashes, whatever the buckets |
| GcsUri.SplitInjective | cmd/vertex-runtime/pack.go:74-85 | two readable URIs address the same object only when they are the same URI |
| Labels.SanitizeValueIdempotent | internal/vertex/labels.go:39-50 | a sanitized value is empty or 1 to 63 legal characters between a letter or digit and a letter or digit, and sanitizing again changes nothing |
| Labels.SanitizeValueFixes | internal/vertex/labels.go:39-50 | a text that already is such a value is left alone |
| Labels.SanitizeValueKeepsAlnums | internal/vertex/labels.go:39-50 | the letters and digits of the lowered text survive in order, all of them up to 63 characters and otherwise a prefix |
| Labels.SanitizeValueSeparates | internal/vertex/labels.go:39-50 | every character of a sanitized value comes from the lowered text in order, a legal one from itself and a hyphen perhaps from one whole run of illegal ones, with nothing else passed over; so letters or digits are neighbours only if they were |
| Labels.SanitizeValueOfRun | internal/vertex/labels.go:39-50 | between two label values that fit, any run of illegal characters becomes exactly one hyphen |
| Labels.SanitizeKeyKeepsValue | internal/vertex/labels.go:55-67 | a key is the sanitized value, or the letter k and that value cut at the end to 63 characters, when it does not start with a letter |
| Labels.SanitizeKeyFixpoint | internal/vertex/labels.go:55-67 | a sanitized key is empty or at most 63 legal characters starting with a letter, and once is enough exactly unless the prefix cut the value at a separator |
| Labels.SanitizeKeyTwiceFixpoint | internal/vertex/labels.go:55-67 | sanitizing a key twice always reaches a fixpoint |
| LabelMaps.ValidateLabels | internal/vertex/labels.go:72-100 | for every order the map is ranged over, no error exactly when there are at most 64 labels and sanitizing is injective and non-empty on the keys |
| LabelMaps.CleanExactly | internal/vertex/labels.go:72-100 | clean labels are those of at most 64 keys, none sanitized to nothing and no two to the same |
| LabelMaps.BuildLabels | internal/vertex/labels_build.go:8-23 | whatever the order, the merge succeeds exactly on clean labels and yields the one specified map |
| LabelMaps.BuiltLabelsContent | internal/vertex/labels_build.go:8-23 | every user label not landing on a managed key survives, the managed three always win, nothing else appears |
| LabelMaps.BuiltLabelsLegal | internal/vertex/labels_build.go:8-23 | every entry of a built map is a legal label |
| LabelMaps.GcpSanitizerLegal | internal/vertex/labels.go:39-67 | the two sanitizers together only ever yield legal keys and values, which is what the map theorems ask of them |
| LabelMaps.BuiltLabelsCount | internal/vertex/labels_build.go:8-23 | the exact size of a built map |
| LabelMaps.LimitCanBePassed | internal/vertex/labels.go:72-100 | for both sanitizers there are 62 clean labels whose built map has one entry more than the limit |
| AdapterState.ParseInvertsMarshal | internal/vertex/state.go:65-125 | what one operation stores the next one reads back, unknown fields included |
| AdapterState.MarshalKeepsDocument | internal/vertex/state.go:65-125 | reading and rewriting any readable document keeps every field this version does not know and reads back the same |
| AdapterState.ReadableExactly | internal/vertex/state.go:65-98 | no document is the fresh state; a document is readable exactly when its fields have their types and its version is at most 1, and is then read field by field; a newer version is the error |
| Inputs.EnumerateAgents | internal/vertex/pack.go:64-98 | the agents are listed ascending without duplicates: exactly the members of an agents section that has any, exactly the prompts of any other pack; a pack with none is an error |
| Inputs.GatherApplyInput | internal/vertex/apply.go:27-87 | the input of an apply carries the request field by field, the pack hash, the hash of the fingerprint, and the delivery by the limit or its default |
| Inputs.ValidateStructure | internal/vertex/config.go:99-196 | no error exactly when project and location are set, the mode is the one that works and names an image, the bucket has the scheme, tracing has a full URL to go to, and the scaling bounds are in range and in order |
| Inputs.StructureExactly | internal/vertex/config.go:99-196 | those conditions, field by field |
| Inputs.PrimaryBinding | internal/vertex/resolve.go:61-79 | some binding exactly when one has the llm role: one named default if there is one, otherwise the first of that role |
| EngineSpecs.BuildEngineEnv | internal/vertex/engine.go:97-146 | an environment exists exactly when no operator variable is reserved and the pack has a route; it is the layered one, for every order of the operator's variables |
| EngineSpecs.BuildEngine | internal/vertex/engine.go:54-80 | a spec exists exactly for buildable inputs, whichever the agent; its name, description, image, service account, both instance bounds, concurrency and limits are the input's own, limits absent exactly when nil or empty, and its card is the agent's own |
| ControlPlane.Client.CreateEngine | internal/vertex/client.go:56-58 | a create that works adds a new engine; one that fails may or may not leave one behind |
| ControlPlane.Client.UpdateEngine | internal/vertex/client.go:59-61 | an update of a missing engine answers NotFound; a failed one leaves the engine live, changed or not |
| ControlPlane.Client.DeleteEngine | internal/vertex/client.go:65-67 | deleting what is gone is no error; a failed delete may have happened |
| Apply.StagePack | internal/vertex/staging.go:43-67 | inline packs stage nothing, a recorded URI is not uploaded again, anything else is written where its hash says |
| Apply.ApplyOneEngine | internal/vertex/apply.go:151-172 | one agent's create, update or recreate, as the specification of an agent's step |
| Apply.DeleteRemoved | internal/vertex/apply.go:175-201 | retired engines are deleted in name order, stopping at the first failure |
| Apply.ApplyEngines | internal/vertex/apply.go:94-145 | the whole apply moves the control plane, the state and the error exactly as specified |
| ApplyTheorems.ApplyStops | internal/vertex/apply.go:94-145 | wherever an apply stops: the exact state it returns; only recorded engines were touched; records stay distinct and owned; at most one engine is left unrecorded, and only by stopping at an agent |
| ApplyTheorems.StoresHeader | internal/vertex/apply.go:111-117 | however far past staging an apply got, what it stores beside the engines: version, adapter version, the new hashes and URI, nothing carried over |
| OrphanCauses.NewOrphansExactly | internal/vertex/apply.go:124-172 | for every oracle, the engines an apply leaves live and unrecorded that were not so before are exactly: none unless it stopped at an agent, and then that agent's recorded engine if still live and the engine of its own create if that took effect and was reported as failed |
| ApplyFacts.AgentsFacts | internal/vertex/apply.go:124-140 | the agent loop, for every oracle: agents before the failure are rewritten and run their specs unless lost, the failing one is struck, the others are untouched |
| ApplyFacts.NamesFacts | internal/vertex/apply.go:182-201 | the delete loop strikes exactly a prefix of the listed names, adds no orphan and never harms a kept agent's engine |
| Convergence.ApplyConverges | internal/vertex/apply.go:94-145 | from any consistent deployment a fault-free apply succeeds exactly when the pack can be staged and the spec built, and then exactly the pack's agents are recorded, each engine live and running its spec |
| Convergence.SecondApplyIsQuiet | internal/vertex/apply.go:94-145 | an identical second apply updates each engine in place, in order, and does nothing else: no create, no delete, no upload, the same state |
| Runs.RunsStayHealthy | internal/vertex/apply.go:94-201 | over any operations, dry runs and outside events: distinct owned records, no call on an engine the adapter did not create, and orphans growing by at most one per apply that failed at an agent and by the live engines recorded when a dry run replaced the document or a destroy that was a dry run or hung up was believed |
| Runs.OrphansBounded | internal/vertex/apply.go:116-145 | from the empty state the live engines the adapter created but does not record never outnumber the applies that failed at an agent and the engines so let go; without dry runs and believed hang-ups, the failed applies alone, and with none failed there are none |
| Runs.ForeignEnginesSpared | internal/vertex/apply.go:151-199 | an engine somebody else made at any moment of a run is never updated or deleted, before or after |
| Runs.RunsConverge | internal/vertex/apply.go:94-202 | convergence and the quiet second apply from every reachable world, through the stored document |
| AsRequested.AppliedAsRequested | internal/vertex/apply.go:94-145 | after a fault-free apply that worked, at the end of any run: the recorded agents are exactly those the pack asks for, and each one's live engine has the request's image, account, bounds, limits, labels, variables and the agent's own card, and configures its container with the request's project, location, bindings and tools |
| Runs.FailedUpdateOrphans | internal/vertex/apply.go:130-134 | an update that fails on a live engine leaves it live and unrecorded |
| Runs.BoundIsReached | internal/vertex/apply.go:124-140 | for every n, n applies of one request whose creates take effect and are reported as failed are n failures and leave exactly n live engines unrecorded |
| Witnesses.OneAgentHappens | internal/vertex/apply.go:124-140 | an accepted request, written out, that such a run can repeat |
| NoChangeSoundness.NoChangeIsSound | internal/vertex/plan.go:115-130 | after a successful apply, a later NO_CHANGE means same pack and agents; a spec can still be built exactly when no variable is reserved and the pack has a route, and it is unchanged exactly when the operator's variables and the route are the same, as they are with equal env, bucket and limit |
| NoChangeSoundness.NoChangeAfterAnyStop | internal/vertex/apply.go:111-145 | wherever an apply stopped past staging, a plan of the same request says NO_CHANGE of every agent still recorded, and unless its engine was lost meanwhile it runs its spec exactly when the apply had settled the agent or it already ran it |
| NoChangeSoundness.FailedUpdateIsStale | internal/vertex/apply.go:124-140 | when the first agent's update fails, any later live engine running another spec keeps it and is planned as NO_CHANGE |
| MissedChanges.FailedUpdateIsMissed | internal/vertex/apply.go:111-134 | over runs: after a fault-free apply of one request and an apply of another whose first update fails, the plan of the latter says NO_CHANGE of every other agent, and their engines run the former's spec |
| MissedChanges.NoChangeExactlyWhen | internal/vertex/hash.go:30-44 | after a fault-free apply of one request at the end of any run, the plan of another says NO_CHANGE of an agent exactly when pack and fingerprint are the same, and is then right exactly when the operator's variables and the route are |
| Witnesses.StaleAnswerHappens | internal/vertex/plan.go:115-130 | two accepted requests, written out, differing in the image, two agents and one failing call: the second agent is planned as NO_CHANGE and runs the other spec |
| Witnesses.OperatorVariableIsMissed | internal/vertex/hash.go:30-44 | two accepted requests, written out, equal but for one operator variable: the second is planned as NO_CHANGE with another spec deployed |
| Witnesses.InlineLimitIsMissed | internal/vertex/hash.go:30-44 | the same of two requests equal but for the inline limit |
| Plan.ReconcilePriorState | internal/vertex/reconcile.go:58-94 | the loops compute exactly the specified reconciliation |
| Plan.DroppedExactly | internal/vertex/reconcile.go:27-46 | a reference is dropped exactly when its own lookup answers NotFound |
| Plan.ReconcilePartitions | internal/vertex/reconcile.go:58-94 | kept and drifted names partition the prior ones; unsettled records stay; a dropped engine really is gone; nothing else of the state changes |
| Plan.BuildPlan | internal/vertex/plan.go:40-91 | the loops emit exactly the specified list of changes, of which the next three rows speak |
| Plan.PlanPackObject | internal/vertex/plan.go:45-52 | the upload of the pack is in the plan exactly when the delivery is not inline, once and last, and no other change is about an object |
| Plan.PlanPartitions | internal/vertex/plan.go:40-138 | exactly one non-drift change per agent or kept engine, DELETE exactly for kept names not desired, one DRIFT ahead of it per drifted name |
| Plan.PlanActions | internal/vertex/plan.go:94-138 | CREATE without a record, NO_CHANGE exactly for a record not in flight under the same two hashes, UPDATE for any other, and the agent's change carries no other action |
| ApplyTheorems.ValidDeliveryHasBucket | internal/vertex/staging.go:75-83 | a delivery is valid exactly when staging it never fails for want of a bucket, so a plan does not promise an upload apply refuses |
| Prediction.PlanPredictsApply | internal/vertex/plan.go:63-138 | with no faults, for every request: when apply can stage and build, the plan is right about an agent's create exactly unless its record is unsettled with nothing behind it, and always about the records that go; when it cannot, exactly where the plan does not say CREATE, and apply drops the first agent's record or none |
| Uploads.UploadsExactly | internal/vertex/staging.go:43-67 | for every oracle, an apply makes exactly one upload, first of all, exactly when the pack does not travel inline, there is a bucket and another URI is stored; otherwise none |
| Uploads.PlanPredictsUpload | internal/vertex/plan.go:45-52 | for every world and request, the plan announces the upload exactly when the pack is over the limit, and apply makes it exactly when besides its URI is not the stored one |
| Prediction.ReservedVariableIsPlanned | internal/vertex/provider.go:82-140 | with one reserved operator variable, an inline pack and nothing deployed, the plan says CREATE and apply fails at the first agent without a call |
| Prediction.UnbuildableOrphans | internal/vertex/apply.go:124-134 | on a live deployment an inline request whose spec cannot be built makes no call and leaves the first agent's engine live and unrecorded |
| Destroy.DestroyAll | internal/vertex/lifecycle.go:66-101 | the destroy loop does exactly what the specification says, for any callback |
| Destroy.DestroyAttemptsAll | internal/vertex/lifecycle.go:66-157 | with a callback that never fails, each recorded name is deleted once, in order, despite failures; nil exactly when every delete worked |
| Destroy.DestroyReportsFirst | internal/vertex/lifecycle.go:88-101 | the error returned is that of the first engine in name order whose delete failed, and none exactly when no delete did |
| Destroy.HungUpDestroyLooksClean | internal/vertex/lifecycle.go:88-98 | a destroy stops early exactly when the callback fails on one of the two events of each recorded engine; it returns nil exactly then or when every delete it made worked, before any delete if the callback failed at once |
| Destroy.NilMeansDeleted | internal/vertex/lifecycle.go:66-157 | nil means on every control plane that every named engine was deleted, exactly when the callback fails on no event of the pass or no record has a name |
| Destroy.DestroyShrinks | internal/vertex/lifecycle.go:66-101 | repeating only shrinks the live recorded engines, strictly for every live one whose delete works; once faults stop one pass clears them |
| DryRun.ApplyDryRun | internal/vertex/client_dryrun.go:14-118 | a dry-run apply: the same loops over an in-memory control plane that starts empty; the real one only loses the names made up |
| DryRun.DryRunOutcome | internal/vertex/client_dryrun.go:42-85 | exactly the document a dry run returns: the prior one without a bucket, the prior one without the first agent when the spec cannot be built, otherwise the pack's agents under names no engine has |
| DryRun.DryRunLetsGo | internal/vertex/client_dryrun.go:42-85 | a dry run touches no engine and no object, and orphans exactly the live engines its document no longer records |
| DryRun.DryDestroyLooksClean | internal/vertex/client_dryrun.go:79-85 | a dry-run destroy of a deployment deletes nothing and returns nil, whatever the callback does |
| Provider.ProviderApply | internal/vertex/provider.go:144-169 | apply as called, dry run or not: one event of a run, a document to store even on partial failure, and an error without one exactly when the request or the stored state cannot be read |
| Provider.ProviderPlan | internal/vertex/provider.go:82-140 | plan as called: exactly the requests with a valid config, readable state, an llm binding, agents and a route are planned, over the verified state, and nothing moves but lookups |
| Provider.AcceptedExactly | internal/vertex/provider.go:82-121 | which requests a plan accepts and which an apply does, field by field |
| Provider.ProviderDestroy | internal/vertex/lifecycle.go:66-101 | destroy as called, dry run or not, with any callback: one event of a run |
| Runtime.LoadConfig | cmd/vertex-runtime/config.go:100-128 | each field is the variable of its name, project and location falling back on the platform's in order; it is an error exactly when no pack is named or the tracing flag is not one of the accepted spellings |
| Runtime.ResolvePackFile | cmd/vertex-runtime/pack.go:27-48 | pack.json in the directory holds exactly the inline pack, or else the fetched one; it is an error exactly when there is no inline pack and none can be fetched or the file cannot be written, and then nothing is |
| Runtime.ContainerReadsInputs | cmd/vertex-runtime/config.go:100-128 | whatever unreserved variables the platform injects, a container started with a built environment reads back the inputs it was built from; the collector endpoint too unless the platform overrides it |
| Delivery.StagedHolds | internal/vertex/staging.go:43-67 | staging, even failing after the write, keeps every staged pack of the run; staging that succeeds leaves this pack where it is looked for exactly when it is inline, was uploaded now, or really is where the stored URI says |
| Delivery.RunsDeliver | internal/vertex/apply.go:94-145 | over any run every live engine of the adapter runs a spec some apply of the run built; with no dry run of a staged pack, and nobody else changing the buckets, its pack is in place and the stored URI names an object holding its pack |
| Delivery.EveryEngineReadsItsPack | internal/vertex/engine.go:97-146 | a container started from any live engine a run created obtains the pack of the apply that built it exactly when that pack is where its route says, and it always is in a run with no dry run of a staged pack and nobody else changing the buckets |
| Delivery.StagedPackStaysReadable | internal/vertex/staging.go:43-67 | after an apply that staged its pack, the environment it builds reads that very pack exactly when the pack was in place, which only an earlier dry run of a staged pack or somebody else's change to the buckets can prevent, and then at every later moment of the run unless somebody else takes it away |
| Delivery.DryRunHidesPack | internal/vertex/client_dryrun.go:113-118 | with no fault at all, after a dry run of a staged pack and the real apply of the same request every agent's engine is live and its container cannot read its pack |
| SessionStore.MessageText | cmd/vertex-runtime/sessionstore.go:291-304 | with a non-empty part text the result depends on the parts alone and is not empty; without one it is the content |
| SessionStore.PartsConcat | cmd/vertex-runtime/sessionstore.go:291-304 | the text of some parts and some more is the text of the ones followed by that of the others |
| SessionStore.OnePart | cmd/vertex-runtime/sessionstore.go:291-304 | the text of a single non-empty part is itself, whatever the content |
| SessionStore.EventExactly | cmd/vertex-runtime/sessionstore.go:307-326 | a message becomes an event exactly when it is a user's or the assistant's and a part or the content holds text; the event has its author, this invocation and the text as its one part |
| SessionStore.EventText | cmd/vertex-runtime/sessionstore.go:268-281 | the texts of an event's parts follow each other in the message read back, which has the author's role; one without text is none |
| SessionFacts.ViewIsVisible | cmd/vertex-runtime/sessionstore.go:268-326 | everything read back from a session would go through one again unchanged |
| SessionStore.TranslationRoundTrip | cmd/vertex-runtime/sessionstore.go:268-326 | a message becomes an event exactly when it is a user's or the assistant's with text, and comes back with that role and text; a user's message is authored by the user, any other by the model |
| SessionStore.EnsureSession | cmd/vertex-runtime/sessionstore.go:206-246 | get, create, wait, with a lost race as good as a create |
| SessionStore.AppendMessages | cmd/vertex-runtime/sessionstore.go:139-172 | the append loop, proved against its specification |
| SessionStore.Save | cmd/vertex-runtime/sessionstore.go:179-191 | the save, proved against its specification |
| SessionStore.Fork | cmd/vertex-runtime/sessionstore.go:194-203 | the fork, proved against its specification |
| SessionFacts.AppendOutcome | cmd/vertex-runtime/sessionstore.go:139-172 | the log after an append is the old one and a prefix of the batch's events, all of them on success; other sessions are untouched |
| SessionFacts.StepRefines | cmd/vertex-runtime/sessionstore.go:100-203 | every operation extends views, never past what it was asked to add, and by exactly that on success; Load returns the view |
| SessionFacts.StoreRefinesMap | cmd/vertex-runtime/sessionstore.go:100-203 | over any operations views only grow; over successful ones the store is a map from id to a sequence of (role, text) |
| SessionFacts.ForkCopiesEverything | cmd/vertex-runtime/sessionstore.go:194-203 | a fork appends the whole source view, leaves the source's log alone, and reports a missing conversation exactly when it is empty |
| SessionFacts.FaultFreeSucceeds | cmd/vertex-runtime/sessionstore.go:100-203 | without faults only forking an empty conversation fails |
| SessionFacts.AppendNeverMissing | cmd/vertex-runtime/sessionstore.go:139-172 | no append fails for want of a session or because it exists |
| SessionFacts.AppendCreates | cmd/vertex-runtime/sessionstore.go:139-147 | appending nothing makes no call and brings up no session; any other append that works leaves the session there |
| SessionFacts.SaveNeverOvershoots | cmd/vertex-runtime/sessionstore.go:179-191 | a save keeps the view as a prefix and leaves at most the longer of the two lengths |
| SessionFacts.SaveSettles | cmd/vertex-runtime/sessionstore.go:179-191 | repeating a save reaches a fixpoint within as many saves as the state is longer than the view |
| SessionFacts.SavesRefine | cmd/vertex-runtime/sessionstore.go:179-191 | successful saves move the stored view by exactly those steps |
| SessionFacts.SaveExact | cmd/vertex-runtime/sessionstore.go:179-191 | one save makes the conversation the state's exactly when the log is a prefix of it with nothing unrepresentable in it |
| SessionFacts.SecondSaveQuiet | cmd/vertex-runtime/sessionstore.go:179-191 | a second save adds nothing exactly when no representable message is left past the stored length |
| SessionFacts.SaveOnceIsEnough | cmd/vertex-runtime/sessionstore.go:179-191 | with every message representable and the log a prefix of them, one save makes Load the whole state and a second adds nothing to it |
| SessionFacts.SaveLeavesLogs | cmd/vertex-runtime/sessionstore.go:179-191 | without faults a save leaves every log as it was exactly when no representable message is left past the stored length; with faults it does whenever none is |
| SessionFacts.SecondSaveLeavesLogs | cmd/vertex-runtime/sessionstore.go:179-191 | with every message representable and the log a prefix of them, a save after a successful one leaves every log as it was |
| SessionFacts.SaveDuplicates | cmd/vertex-runtime/sessionstore.go:187-190 | a tool result in the middle makes a second save write the last message twice |
| SessionRace.NobodyLosesTheRace | cmd/vertex-runtime/sessionstore.go:206-257 | in every interleaving of N first writers: created at most once; a writer not told too early that the session exists fails exactly by a fault of its own, and when it is done the session is there; one told too early that fails without a fault has written nothing; each writer's part of the log is a prefix of its translated batch in order, all of it when done |
| SessionRace.LosesExactlyWhen | cmd/vertex-runtime/sessionstore.go:206-257 | a move makes a writer fail without a fault exactly by an append that arrives while the session is still not there, and only after being told too early |
| RaceSchedules.LosersExactly | cmd/vertex-runtime/sessionstore.go:139-246 | in every schedule a writer fails without a fault exactly when its first event arrives before any create has settled |
| RaceSchedules.FinishedExactly | cmd/vertex-runtime/sessionstore.go:139-172 | a finished writer with something to say and no fault has its whole batch in the log, or in exactly that case nothing |
| SessionRace.NoRefusalNoLoser | cmd/vertex-runtime/sessionstore.go:206-257 | when no create is refused on account of a pending one, nobody fails but by a fault of its own |
| SessionRace.RefusedTooEarlyLoses | cmd/vertex-runtime/sessionstore.go:206-257 | two writers and five moves without a fault in which the second one's messages are lost |
| SessionRace.EachAsIfAlone | cmd/vertex-runtime/sessionstore.go:139-172 | a writer that got through the race has added exactly what appending its batch alone, without faults, adds |
| SessionRace.RaceEnds | cmd/vertex-runtime/sessionstore.go:139-246 | every schedule of possible moves is bounded by a measure that each move decreases |
| SessionRace.StuckMeansOver | cmd/vertex-runtime/sessionstore.go:139-246 | when nothing more can happen every writer is done with its whole batch, was hit by a fault, or was told too early and has written nothing |
| StreamHandoff.StreamTellsTheTruth | cmd/vertex-runtime/handlers.go:122-159 | in every interleaving: lines are a prefix of the turn's non-empty texts and at most one trailing error line; 500 exactly when an error came before any text; in every state with the writer done, final ones included, the whole turn is told unless a write failed or the client left first |
| StreamTexts.AllTextsExactly | cmd/vertex-runtime/turn.go:131-143 | the texts of a turn are exactly its non-empty text chunks before the first error, each once and in order |
| StreamTexts.StatusTellsSilence | cmd/vertex-runtime/handlers.go:122-159 | in every interleaving no empty text becomes a line; when the writer is done, with no write failed and the client there, the status is 500 with no line exactly when set-up failed or the first error has only empty text and other chunks ahead of it, and 200 otherwise |
| StreamHandoff.NeverStuck | cmd/vertex-runtime/turn.go:114-180 | no reachable unfinished state waits for the client: the error slot has room, and is filled and closed before the data channel closes |
| StreamHandoff.StreamTerminates | cmd/vertex-runtime/turn.go:114-180 | every schedule is bounded, and one only the client could prolong has ended the goroutine and returned from the handler |
| StreamEnds.StreamTurn | cmd/vertex-runtime/turn.go:114-146 | the producer's loop sends a prefix of the turn's texts, none of them empty; uncancelled it sends all of them and returns the turn's own error |
| StreamEnds.WriteStream | cmd/vertex-runtime/handlers.go:122-159 | the writer's loop yields the whole response when every write works, and exactly the texts before the first write that fails |
| StreamEnds.Stream | cmd/vertex-runtime/handlers.go:117-118 | with nothing lost the two loops together produce the response that every unbroken interleaving whose client stays produces |

## Left out

- The real GCP clients, the REST agent-card patch, proto conversion and the bytes of a Cloud Storage write: foreign calls. A staged object is written whole or not at all.
- The dry-run client's label selector, and the names it derives from display names: here they are only new and distinct.
- Status and aggregateStatus, progress reporting, endpoint links, warnings, summaries, logging and tracing.
- Config parsing and its defaults, provider-binding resolution and tool-spec merging: requests enter with their defaults filled in, bindings resolved and tools encoded.
- A control-plane or storage client that cannot be built: a plan then uses the stored state and an apply changes nothing.
- JSON text, Go templates, `%q` quoting in descriptions and SHA-256 itself.
- The entry flag of an agent, which no deployed spec uses.
- The text and order of validation messages; the model keeps whether there are any.
- HTTP start-up, request decoding, the unary handler, `withSession`, and the engine name a runtime composes for its sessions.
- The session API's paging, user ids, timestamps and display names.
- A part of a line or of a pack file written before a write fails.
- The SDK's own goroutine behind a stream that is abandoned.
