# A verified model of the gagent operator's control logic

The operator claims agent definitions from garam, builds an Agent resource and a credential Secret for each, reconciles
every Agent into a StatefulSet, reports what it sees back to garam, and keeps its own certificate alive.  Its logic is
five small state machines that share state with the API server and with garam.  This project models the five, lets any
call fail (or take effect while its answer is lost), lets the process die between any two calls, lets everything else
move in between, and proves what holds over every run.

`dafny verify dfyconfig.toml` checks the whole project.

## How it is laid out

| files | what they hold |
|---|---|
| `Prelude`, `Api` | shared datatypes; the Agent resource |
| `Protocol` | claim / construct / report as a machine: garam's assignments, claims, certificate route and report latch; Agents and Secrets; what the poller and the reporter hold between two calls |
| `Safety`, `Fencing`, `Custody`, `Convergence` | the invariant of that machine; fencing and crash safety; custody of keys, provenance of reports, epochs; agent by agent, two passes build and a third does nothing |
| `Declarations` | what an Agent the operator made is made of |
| `Operator` | the poller and the reporter as they run: their own variables, calls on garam and the API server that answer, branches on the answers, and the world moving in between; proved to stay where the machine of `Protocol` is |
| `Workload`, `Rendering`, `Features`, `Deployed` | the StatefulSet as a pure function of Agent, configuration and object found; idempotence, path independence, feature independence, closed mounts; and what a built workload runs, said outright |
| `GoSlice`, `ApplyAgent` | Go slices with a backing array and a capacity, and `applyAgent` in place through pointers into them, refining `Workload.Render` |
| `MergePatch`, `Status` | JSON merge patch (section 2 of RFC 7396), conditions, and the two writers of one status |
| `Reconcile`, `Wakeups`, `Storage`, `Provenance`, `Controller` | the level-triggered reconcile with its queue and watches; no Agent is stuck; what Synced and Available mean; where an Available comes from; the reconciler as it runs |
| `Reporting` | the reconciler joined to the protocol: where a reported state comes from |
| `Enrollment`, `Enroller` | one-time tokens, the spent list, expiry and restarts; the enroller as it runs |
| `Renewal`, `Renewer` | the lineage, the store and its lag; the renewer as it runs |
| `Values` | the free-form values of a definition, and what of them reaches a workload |

The step functions of the machines (`Protocol.Begin`, `Reconcile.Written`, `Enrollment.Attempted`, `Renewal.Kept` and
the rest) follow the code branch by branch and carry no contracts of their own; what is promised of them is promised by
the lemmas and methods listed below.

## What is assumed, and where the code and its comments part

- `Name` keeps 64 bits of a digest.  `Config.Injective` assumes the digest tells the agents in play apart, and only those.
- Users write no Agent at a digest name and no status (`Protocol.Outside`).  Without that the construction takes the
  object over: `Custody.AdoptsWhateverIsThere` says what then happens, and exactly when the credential is found again.
- Users may edit any Agent, also to name another Secret.  Fencing, conservation and the frozen credential hold whatever they
  name.  Of convergence it is part of the equivalence what an agent's own Agent names (`Convergence.Placeable`), and a
  hypothesis only that no other agent's Agent names its Secret (`Convergence.Apart`); edits of other Agents void nothing.
- garam may change the pins of a definition at any time (`Protocol.Redefine`).  A change after construction reaches nothing, as docs/architecture/agent.md:145 says of the design.
- garam's epochs start at 1 and only rise, a definition is claimed once, and a report is accepted only from the holder at
  the current epoch.  The client does not check that a claim answer's epoch is at least 1 (internal/garam/client.go:361-366);
  here that is part of garam.
- `construct` takes a certificate answer as proof of the epoch (internal/garam/poller.go:118-133).  It is not: an agent can be
  assigned away and back between the list and the certificate.  `Custody.StaleRecordExists` is such a run, and
  `Custody.RecordIsCurrentIff` says exactly when the record is current.  Fencing holds either way.
- A Secret implies its Agent only while its owner stands: deleting the Agent leaves the Secret until it is collected
  (`Custody.OrphanExists`).  Until then the agent is not built again, and `Convergence.TwoPassesBuild` says so as an
  equivalence, agent by agent.
- `agentsNamingSecret` drops the wake-up when its list fails (internal/controller/agent_controller.go:145-149).  That is the
  only way an Agent is left behind, until the next time it is read; `Wakeups.StrandedIff` says exactly when it is.
- The API server fills only fields the builder never writes (`Rendering.Stores`), keeps claim templates as created, and
  refuses a create of a name that exists.  Reads see the current object.
- A renewal presents what the mounted files show, each call on a connection of its own.  `Renewal.LagBeyondInterval` shows the
  interval contract of `NewRenewer` is needed.
- Digests of tokens tell the tokens one process presents apart, where a lemma says `ToldApart`.

## Model

| member | source | states |
|---|---|---|
| Fencing.ReassignmentFences | internal/garam/poller.go:134-166 | Once an agent whose credential is placed is assigned again, garam takes no later report of it from this operator and its latch is never again written from here, over every continuation in which the Secret stands, whatever was in flight, whatever users edit and however often the process restarts |
| Fencing.CredentialImpliesRecord | internal/garam/constructor/agent.go:89-96 | In every reachable state a credential Secret whose owner stands belongs to an Agent with the right GRN and an epoch of at least 1 that is never ahead of garam's; and unless a user made that Agent name another Secret, both carry the digest name |
| Fencing.UserAgentsLeftAlone | internal/garam/constructor/agent.go:195-225 | No step of the poller creates, deletes or changes an Agent outside the digest names, and such an Agent carries no record |
| Fencing.PollTouchesGaram | internal/garam/poller.go:46-76 | A step of the poller never moves a latch or lowers an epoch, and issues a certificate only for the agent it is asking about |
| Safety.StepKeeps | internal/garam/poller.go:46-166 | Every step of the operator, of garam, of users and of the reconciler, and every crash, keeps the protocol's invariant |
| Custody.KeysAreConserved | internal/garam/poller.go:134-166 | Per agent, certificates issued are those placed plus those lost plus at most one in hand; between definitions and between passes the hand is empty |
| Custody.PlacedCredentialIsFrozen | internal/garam/constructor/agent.go:161-182 | Over every run in which the Secret is not deleted its content never changes, garam issues no further certificate for the agent, and the recorded GRN and epoch stay |
| Custody.ReportedStateIsObserved | internal/garam/reporter.go:121-132 | A state garam holds from this operator is ready or provisioned, never pending or failed, and the run contains a reconcile's read of that agent's StatefulSet that saw just that |
| Custody.RefusalsAreIndependent | internal/garam/reporter.go:59-76 | What a pass delivers for one agent does not depend on what became of the reports of the others |
| Custody.UnobservedIsLeftAlone | internal/garam/constructor/observation.go:50-65 | A pass that observed nothing of an agent leaves garam's whole entry for it as it was |
| Custody.CurrentStateIsDelivered | internal/garam/reporter.go:84-110 | An observation at the current epoch that gets through is what garam holds after the pass |
| Custody.EpochCountsAssignments | internal/garam/client.go:119-139 | Over every run the epoch of a claimed agent rises by exactly the number of reassignments in it |
| Custody.RecordIsCurrentIff | internal/garam/poller.go:118-166 | The epoch about to be recorded equals garam's if and only if the agent was not assigned since that epoch was read |
| Custody.StaleRecordExists | internal/garam/poller.go:118-166 | There is a run in which no call fails that ends with the credential placed, this operator the holder, and a record garam accepts no report at |
| Custody.OrphanExists | internal/garam/constructor/agent.go:72-83 | There is a run that leaves a credential Secret with no Agent, so the owner's standing is needed above |
| Custody.AdoptsWhateverIsThere | internal/garam/constructor/agent.go:118-154 | An Agent already at the digest name is taken over with its spec unchanged and the record written on it; the credential is then found again if and only if that Agent names the digest Secret, and otherwise the next check asks for another certificate |
| Convergence.TwoPassesBuild | internal/garam/poller.go:46-76 | From any reachable state in which no other agent's Agent names its Secret, after two passes in which the agent's own calls succeed and nobody takes it or its objects away, with the reconciler, the reporter, users and every other agent doing as they like meanwhile: an agent unclaimed or held at the start is held, an Agent recorded for it runs the configured image, and it is built with record and credential under its Agent if and only if at the start no credential had outlived its Agent and its Agent, if any, named the digest Secret or a credential was placed already; an Agent there was none of carries the pins garam declared at the first list and the configured storage size, and one that was there keeps its spec but for the image |
| Convergence.ThirdPassDoesNothing | internal/garam/poller.go:134-166 | Where nothing was in the way of placing the credential, no step the poller takes about the agent in a third such pass changes anything in the cluster, moves anything else of garam or makes a claim, and none asks a certificate if this operator holds the agent |
| Convergence.ThirdPassIssuesIff | internal/garam/poller.go:134-166 | Of an agent unclaimed or held at the start, a third such pass has exactly one more certificate issued if its Agent named another Secret with none placed, and none otherwise |
| Convergence.PassExists | internal/garam/poller.go:46-76 | A pass left to itself always comes to an end, and is calm for every agent |
| Convergence.OnePass | internal/garam/poller.go:46-166 | One pass calm for an agent moves that agent forward, and has a certificate issued exactly where it is held and had none placed, whatever happens to the others |
| Convergence.ThirdPassWritesNothing | internal/garam/poller.go:46-166 | Where that holds of every agent and none is defined meanwhile, no step of the poller in the third writes any object |
| Convergence.WorkIsLocal | internal/garam/constructor/agent.go:237-240 | A call about one agent, however it ends, changes nothing garam or the cluster holds of another whose Secret only its own Agent names |
| Convergence.PollKeepsSpecs | internal/garam/constructor/agent.go:105-116 | A step of the poller writes no field of an existing spec but the image, and an Agent it makes has the configured image and storage size, its own Secret and the pins of the definition it was listed with |
| Declarations.AgentsAreMadeAsDeclared | internal/garam/constructor/agent.go:105-116 | Over every run an Agent at a digest name that no user edited carries pins garam declared for that very agent at some step of the run and the operator's storage size, with no storage class or resources, and unless a user renamed it names its own Secret |
| Declarations.CreatesAsDeclared | internal/garam/constructor/agent.go:105-116 | What one create leaves: the digest name, the configured image and storage size, the definition's pins, its own Secret and an empty status |
| Operator.PollerLoop.List | internal/garam/client.go:52-66 | What the call answered is what the pass works through and where the machine is; without an answer the pass ends |
| Operator.PollerLoop.Claim | internal/garam/poller.go:100-116 | An assignment gives the epoch the machine goes on with; a conflict and a failed call both move on to the next definition |
| Operator.PollerLoop.CorrectImage | internal/garam/constructor/agent.go:195-225 | What it reports corrected runs the configured image; where nothing fails or moves it corrects exactly an Agent carrying this agent's record and another image, and otherwise writes nothing; whatever fails, construction follows |
| Operator.PollerLoop.HasCredential | internal/garam/constructor/agent.go:72-83 | A certificate is asked for exactly where the look answered that the Secret is not there |
| Operator.PollerLoop.Certificate | internal/garam/poller.go:144-155 | A credential in hand is of the definition's agent and is the machine's; a refusal and a failed call both end the definition |
| Operator.PollerLoop.EnsureAgent | internal/garam/constructor/agent.go:105-155 | What is returned is the object the machine holds and carries the GRN and the epoch; nothing is returned where a call failed |
| Operator.PollerLoop.FindOrCreate | internal/garam/constructor/agent.go:105-124 | The object just created, or the one already there as it was read, or nothing; where nothing fails or moves, one created carries the definition's pins and the configured image and storage size, and one already there is left as it is |
| Operator.PollerLoop.PlaceCredential | internal/garam/constructor/agent.go:161-182 | Success means the Secret the Agent in hand names is there; where nothing fails or moves it succeeds, leaving a Secret already there alone and otherwise placing the credential under the Agent's identity |
| Operator.PollerLoop.Construct | internal/garam/poller.go:134-166 | Certificate, Agent and Secret, each only on the answer before; whatever fails it ends at the next definition with nothing in hand |
| Operator.PollerLoop.Handle | internal/garam/poller.go:53-74 | The machine goes on at the epoch listed where there was a claim and at the claim's own otherwise; without one it moves on to the next definition |
| Operator.PollerLoop.Poll | internal/garam/poller.go:46-76 | Branching only on answers, the loop stays where the machine is, whatever fails, moves or dies; a pass it completes is a pass in the sense of Convergence, with all that happened beside it |
| Operator.PollerLoop.PollThrice | internal/garam/poller.go:46-76 | Three such loops with nothing failing: after two every agent unclaimed or held is held, and built exactly under the conditions of TwoPassesBuild; where nothing was in the way of placing any credential the third leaves the cluster as it finds it |
| Operator.LoggedIsRun | internal/garam/poller.go:46-166 | What the loops do is a run of the protocol, so every theorem about runs holds of them |
| Operator.World.ClaimDefinition | internal/garam/client.go:71-83 | What a claim does to garam and which of its three answers comes back |
| Operator.World.IssueAgentCertificate | internal/garam/client.go:92-104 | What a certificate call does to garam and which of its three answers comes back |
| Operator.World.ReportProvisioningState | internal/garam/client.go:119-139 | A report is recorded exactly from the holder at the current epoch; another epoch is stale and another holder not ours |
| Operator.ReporterLoop.Observations | internal/garam/constructor/observation.go:24-43 | One observation per Agent carrying a whole record, in list order, and none for the others |
| Custody.ReadinessIsAvailable | internal/garam/constructor/observation.go:50-65 | A ready replica is observed exactly where the first Available condition is True, none exactly where it is False, and nothing otherwise |
| Operator.ReporterLoop.ProvisioningStateOf | internal/garam/reporter.go:121-132 | Nothing is reported of a pod nobody observed |
| Operator.ReporterLoop.Send | internal/garam/reporter.go:84-110 | What each answer means: accepted is recorded at that epoch, stale is held at another, and either ends that agent's report and no other's |
| Operator.ReporterLoop.ReportPass | internal/garam/reporter.go:59-76 | The loop stays where the machine is and comes to rest; where nothing fails or moves, garam ends with every observation delivered in turn, and holds every agent it accepts a report of as ready where its Agent's first Available is True, as provisioned where it is False, and otherwise as before |
| Operator.AvailableIsDelivered | internal/garam/reporter.go:59-132 | In every reachable state, a pass that gets through leaves garam's latch of each agent whose record it accepts at what that Agent's Available says |
| Protocol.Observed | internal/garam/constructor/observation.go:24-43 | Every observation describes a listed Agent with a whole record, and every listed Agent with a whole record is observed |
| Protocol.StateOf | internal/garam/reporter.go:121-132 | Ready exactly of a ready replica, provisioned exactly of none, and nothing of one not observed |
| ApplyAgent.Apply | internal/controller/agent_statefulset.go:262-383 | In place, for every capacity of both container slices, the object's value becomes exactly the pure render of its old value, and an error is returned exactly when the pins do not render or another controller owns it |
| ApplyAgent.ApplyToolPins | internal/controller/agent_statefulset.go:401-441 | The config container, volume, mount and variable are there exactly with pins, and the container is gone without them |
| ApplyAgent.ApplyWorkspace | internal/controller/agent_statefulset.go:449-485 | The workspace container is upserted with an image named and deleted without one |
| ApplyAgent.ApplyContainers | internal/controller/agent_statefulset.go:309-379 | Both container lists come out as the pure lists, through pointers that stay live until their last write |
| ApplyAgent.ApplyAtCreation | internal/controller/agent_statefulset.go:263-269 | An object that exists is left as it is; a new one selects the very Pods of its template and claims the size asked for |
| ApplyAgent.ApplyPod | internal/controller/agent_statefulset.go:271-286 | Replicas and the four Pod security fields are written and the rest of the Pod security context is kept |
| ApplyAgent.Own | internal/controller/agent_statefulset.go:382-382 | Refused, with nothing written, exactly where the first controller found is another's; otherwise the Agent's own reference, with its identity, is there and controls the object, every other owner's is kept, and the first controller found is the Agent |
| ApplyAgent.ClaimedStorageSize | internal/controller/agent_statefulset.go:245-253 | The storage request of the first claim of the state volume, and zero where there is no such claim |
| GoSlice.Slice.Append | internal/controller/agent_statefulset.go:491-501 | The content grows by one; the array is kept where it had room and fresh where it had not |
| GoSlice.Slice.Named | internal/controller/agent_statefulset.go:491-501 | The pointer is to the first container of the name in the array the slice has afterwards, one being appended where there was none |
| GoSlice.Slice.Delete | internal/controller/agent_statefulset.go:401-409 | Every container of the name goes and the others keep their order, within the same array |
| GoSlice.WriteThroughEarlierPointer | internal/controller/agent_statefulset.go:378-380 | A write through a pointer taken before an append reaches the slice if and only if the append found room, which is why the workspace is built last |
| Rendering.StoredIsFixpoint | internal/controller/agent_statefulset.go:222-239 | Whatever the API server fills into fields the builder never writes, building again from the stored object changes nothing and is not refused |
| Rendering.OnlyTheLastBuildCounts | internal/controller/agent_statefulset.go:262-383 | From an object with neither optional container, whatever was built in turn and whatever the API server filled in after each, what the operator owns of the Pod is what the last build alone asks for, and labels, selector and claim are as at creation |
| Rendering.ExactlyTheLastBuild | internal/controller/agent_statefulset.go:262-383 | Where the server fills nothing in, the whole Pod is the one the last build alone leaves, foreign containers and unowned fields as found |
| Rendering.RenderedFixpoint | internal/controller/agent_statefulset.go:262-383 | A container list is left alone exactly when it already carries what is asked for |
| Rendering.ForeignContainersKept | internal/controller/agent_statefulset.go:491-501 | Containers the operator does not own keep their content and order |
| Features.ToolsAreSeparate | internal/controller/agent_statefulset.go:343-363 | Stripping the tool tree from a built Pod gives exactly the Pod built without it |
| Features.WorkspaceIsSeparate | internal/controller/agent_statefulset.go:365-380 | Stripping the workspace gives exactly the Pod built without it |
| Features.PinsAreSeparate | internal/controller/agent_statefulset.go:401-441 | Stripping the pins gives exactly the Pod built without them |
| Features.StripsCommute | internal/controller/agent_statefulset.go:343-485 | The three strips of a built Pod commute |
| Features.PodFromNothing | internal/controller/agent_statefulset.go:262-383 | Over any sequence of builds from a fresh object, as the server stores them, the containers are exactly the operator's own and the claim is the first build's |
| Features.MountsAreClosed | internal/controller/agent_statefulset.go:288-380 | Every mount names a volume of the Pod or the claim, and only the credentials container mounts the projected Secret |
| Features.NamesAreDistinct | internal/controller/agent_statefulset.go:288-380 | Volume names are distinct, and so are the agent's variables |
| Features.TextStaysInConfig | internal/controller/agent_statefulset.go:417-438 | Only the config container carries the config text, and what it carries is the rendering of the pins last built |
| Features.BothEndsOfTheLink | internal/controller/agent_statefulset.go:365-380 | The agent is told to dial an address exactly when the Pod has a workspace listening there |
| Features.ClaimKeepsFirstSize | internal/controller/agent_statefulset.go:504-517 | Over any sequence of builds the claimed size is that of the first |
| Deployed.AgentRunsItsSpec | internal/controller/agent_statefulset.go:322-337 | Over any stored sequence of builds, the agent's container runs the image and has the resources of the spec last built, confined, with its credential and its state mounted where it expects them |
| Deployed.AgentIsPointedAtItsTrees | internal/controller/agent_statefulset.go:343-363 | Tools and config are mounted read-only and the agent pointed at the very mount, exactly where a tools image is configured and exactly where pins are declared |
| Deployed.WorkspaceServes | internal/controller/agent_statefulset.go:449-485 | The workspace is there exactly with an image named, runs that image, confined, serves the address and works in the agent's state |
| Deployed.CredentialIsCopied | internal/controller/agent_statefulset.go:309-320 | The copy image copies the projected Secret to where the agent reads it, at mode 0600 |
| Deployed.ConfigIsWritten | internal/controller/agent_statefulset.go:401-441 | The config file is written by the copy image exactly with pins, from a text in the environment that is their rendering |
| Deployed.PodIsUnprivileged | internal/controller/agent_statefulset.go:271-286 | One replica, as user and group 65532, asserted not root, under the runtime's default seccomp profile |
| Deployed.VolumesHoldWhatTheyName | internal/controller/agent_statefulset.go:288-307 | Each volume is what its name says: the Secret the Agent names at mode 0440, a bounded volume in memory, the tools image, the config directory |
| Deployed.SecretIsProjected | internal/controller/agent_statefulset.go:288-296 | The Secret the Agent names is projected into the Pod |
| Deployed.StateIsClaimed | internal/controller/agent_statefulset.go:504-517 | The one claim is for one writer, of the size and class first asked for |
| Deployed.SelectorsKeepApart | internal/controller/agent_statefulset.go:521-526 | A workload selects the Pods of its own template and none of a workload first built for an Agent of another name |
| Deployed.AnyBuildSetsTheImages | internal/controller/agent_statefulset.go:262-383 | Of any object whatever, a build leaves the agent's container with the spec's image and resources, the credential's with the copy image, and the workspace's with its own exactly where one is configured |
| MergePatch.DiffApplies | internal/controller/agent_status.go:78-78 | A patch computed from one document to another takes the first to the second |
| MergePatch.DiffDecides | internal/controller/agent_status.go:62-72 | Where a document still has what was read at a field, the patch makes it what was decided |
| MergePatch.DiffAt | internal/controller/agent_status.go:62-72 | On any document, a plain field becomes what was decided if the decision moved it and stays as it now is otherwise |
| MergePatch.ApplyAt | internal/controller/agent_status.go:62-72 | What a patch leaves of a field, in full |
| MergePatch.ApplyTwice | internal/controller/agent_status.go:62-72 | Patching twice with one patch is patching once |
| MergePatch.ApplyInEitherOrder | internal/controller/agent_status.go:62-72 | Patches that name no field in common leave the same whichever lands first |
| Status.SetReports | internal/controller/agent_status.go:19-40 | Setting a condition makes it the one reported of its kind and changes no other kind |
| Status.SetTransition | internal/controller/agent_status.go:19-40 | The transition time afterwards is the first old one's while the status is the same, and now where it moved or there was none |
| Status.SetFrames | internal/controller/agent_status.go:19-40 | Every other condition stays in its place as it was |
| Status.SetFixpoint | internal/controller/agent_status.go:73-76 | Setting a condition changes nothing exactly when it is already reported, whatever the clock says |
| Status.EncodeInjective | internal/controller/agent_status.go:73-76 | No two statuses have one encoding |
| Status.EncodedAs | internal/garam/constructor/agent.go:139-147 | The status on the wire name by name, a field being there exactly where it is not empty |
| Status.ConditionEncodedAs | internal/controller/agent_status.go:19-27 | A condition on the wire name by name |
| Status.PatchWrites | internal/controller/agent_status.go:73-80 | The status patch, landing on whatever the object has become, moves exactly the fields the reconcile moved |
| Status.RecordWrites | internal/garam/constructor/agent.go:127-154 | The record patch sets GRN and epoch and keeps every other field |
| Status.TwoWritersLoseNothing | internal/controller/agent_status.go:62-92 | Under every interleaving of read, decision and patch with the constructor's patches, and across restarts, the stored status is each writer's last write of its own fields |
| Reconcile.JudgedFixpoint | internal/controller/agent_controller.go:60-69 | A reconcile's status equals the one it read exactly when that one already carried the verdict, so nothing is patched for a clock |
| Wakeups.StepKeeps | internal/controller/agent_controller.go:50-139 | Every step of the reconcile, of users, Secrets and workloads, and every restart, keeps each Agent queued, in progress on what is still true, or settled |
| Wakeups.NoStuckAgent | internal/controller/agent_controller.go:50-159 | In every reachable state an Agent neither queued nor in progress, with no event of its Secret outstanding or missed since it was last read, has the status a reconcile of the present cluster would write, and that reconcile would write nothing |
| Wakeups.IdleIffSettled | internal/controller/agent_controller.go:50-119 | A quiet reconcile writes nothing and fails at nothing if and only if the workload and the status are what it would make them |
| Wakeups.PassSettles | internal/controller/agent_controller.go:50-119 | One quiet reconcile settles an Agent wherever the cluster stood before |
| Wakeups.SecondPassWritesNothing | internal/controller/agent_status.go:73-76 | The reconcile after a quiet one writes neither the StatefulSet nor the status, whatever the clock says |
| Wakeups.AtRestSettledIff | internal/controller/agent_controller.go:83-119 | In every reachable state an Agent at rest, told of events or not, is settled exactly when its Synced reason says the Secret is missing just when it is |
| Wakeups.StrandedIff | internal/controller/agent_controller.go:132-159 | An Agent is left behind exactly when it missed an event since it was last read and its status is wrong about the Secret's being there |
| Wakeups.DroppedWakeupStrands | internal/controller/agent_controller.go:145-149 | For every Agent there is a run in which the Secret arrives, the list fails, and no step of the reconciler moves again though the workload is not built |
| Wakeups.WorkloadMovesKeeps | internal/controller/agent_controller.go:132-139 | A settled workload is owned by its Agent, so no change to it goes unseen |
| Storage.SyncedMeansFirstSize | internal/controller/agent_controller.go:83-119 | However the Agent is edited while its workload stands, at rest Synced is True exactly when the Secret exists and the size equals the first build's in value; so editing back restores it |
| Storage.SettledConditions | internal/controller/agent_controller.go:83-119 | What a settled Agent's Synced and Available say, both directions |
| Storage.SettledReasons | internal/controller/agent_controller.go:83-119 | The conditions of a settled Agent word for word: their reasons, and the generation they are of |
| Storage.ClaimStands | internal/controller/agent_statefulset.go:263-269 | Over every run in which the workload is not deleted its claim template stays |
| Storage.FirstBuildClaims | internal/controller/agent_statefulset.go:504-517 | The reconcile that first builds a workload claims the size its Agent then asked for |
| Provenance.AvailableWasRead | internal/controller/agent_status.go:46-60 | Over every run of the reconciler, an Available of True or False on an Agent was decided at a step of the run that wrote or found the StatefulSet of that name with just that readiness |
| Provenance.ConditionsAreJustified | internal/controller/agent_controller.go:83-119 | Every run of the reconciler keeps to what the report protocol assumes of its conditions |
| Reporting.ReportedStateWasRead | internal/garam/reporter.go:59-132 | In every run of the protocol whose reconciler's part is what a run of the reconciler amounts to, a state garam holds from this operator was decided at a step of that run that wrote or found the agent's own StatefulSet with just that readiness |
| Reporting.ConditionsAreTaken | internal/garam/constructor/observation.go:50-65 | In every such run the protocol's guard on the reconciler's conditions holds, so none is ever turned away |
| Controller.Held.SetSynced | internal/controller/agent_status.go:19-27 | From then on the Agent reports this Synced at its generation, and every other kind as before |
| Controller.Held.SetAvailable | internal/controller/agent_status.go:32-40 | From then on the Agent reports this Available at its generation, and every other kind as before |
| Controller.SetStatusCondition | internal/controller/agent_status.go:19-40 | The in-place update reports the condition, with the transition time of the one of the kind there was while its status is the same and now otherwise, and is the pure update |
| Controller.Held.SetAvailableFromWorkload | internal/controller/agent_status.go:46-60 | Available follows the ready replicas of the workload in hand |
| Controller.Reconciler.ReconcileStatefulSet | internal/controller/agent_statefulset.go:222-239 | The object found is built in place by applyAgent, whatever room its slices have; what comes back is what the cluster then holds and the reconcile judges by, and an error queues the key again |
| Controller.Reconciler.ReconcileWorkload | internal/controller/agent_controller.go:83-119 | The conditions set one by one in memory are the status the machine decides |
| Controller.Reconciler.CredentialsExist | internal/controller/agent_controller.go:121-129 | The answer decides between building the workload and the missing-Secret verdict |
| Controller.Reconciler.WriteStatus | internal/controller/agent_status.go:73-92 | Nothing is patched where nothing new was decided; an error leaves the key queued |
| Controller.Reconciler.Reconcile | internal/controller/agent_controller.go:50-72 | One reconcile takes only steps of the machine, whatever fails, moves or dies, ends with nothing in progress, and after an error is queued; where nothing fails or moves it is exactly the quiet pass Wakeups speaks of |
| Controller.Manager.AgentsNamingSecret | internal/controller/agent_controller.go:143-159 | Exactly the Agents naming the Secret, each once, and none where the list failed |
| Controller.Manager.SecretEvent | internal/controller/agent_controller.go:132-159 | A Secret's event queues exactly those Agents, or is missed by exactly those where the list failed |
| Enrollment.NoTokenIsPresentedTwice | internal/garam/enroller.go:133-167 | Over every run of file contents, clock, answers and restarts no process presents one token twice |
| Enrollment.TokensAreSpentWithCare | internal/garam/enroller.go:133-167 | Every presentation of every run was made where the held pair was unreadable or its notAfter had come |
| Enrollment.OneCertificatePerToken | internal/garam/enroller.go:173-215 | At most one certificate is issued per token across any number of restarts, and only for a token presented |
| Enrollment.CertificatesAreAccountedFor | internal/garam/enroller.go:188-215 | A stored certificate sits beside the key of the request it answered, and every certificate issued to the enroller was stored or lost in the look that obtained it |
| Enrollment.FreshTokenIsPresented | internal/garam/enroller.go:133-186 | A look presents the token in its file, however padded, exactly when the process is still looking, holds no live certificate, could generate a request and has not presented that token |
| Enrollment.CertificateEndsIt | internal/garam/enroller.go:111-167 | The looking ends at a look exactly when that look found a live certificate or obtained and stored one |
| Enrollment.ObtainedIsStored | internal/garam/enroller.go:173-215 | A look that presents a token garam can spend, is answered and whose store takes effect leaves that certificate in the Secret beside the key of its request, and ends the looking exactly when the store said so |
| Enrollment.OtherLooksStoreNothing | internal/garam/enroller.go:133-215 | Every other look leaves the Secret as it was, and ends the looking only for a live certificate |
| Enrollment.LooksSpend | internal/garam/enroller.go:173-200 | garam spends a token and issues for it exactly where a look presents it and the call arrives, and a token presented is remembered whatever becomes of the call |
| Enrollment.SecretHoldsTheLastPut | internal/garam/enroller.go:202-215 | Over every run the Secret holds the credential of the last renewal or of the last look that obtained one, and nothing before the first |
| Enrollment.LineIsRead | internal/garam/enroller.go:156-158 | A token copied as a line is read as the token |
| Enrollment.PaddingIsDropped | internal/garam/enroller.go:156-158 | White space around a token does not make another token of it |
| Enroller.Enroller.Attempt | internal/garam/enroller.go:133-167 | One look is one step of the machine, and what it returns is whether the looking ended |
| Enroller.Enroller.Enroll | internal/garam/enroller.go:173-215 | The digest is remembered before the call whatever it answers; a token garam can spend, answered and stored, ends with the certificate in the Secret beside its request's key, and nothing else reports success |
| Enroller.Enroller.Start | internal/garam/enroller.go:111-121 | The looks are taken in order and none is left out until one ends it, every one a step of the machine |
| Renewal.SupersededIffSevered | internal/garam/renewer.go:29-39 | With a lag within the interval, an attempt a lag after the last mint and the process's start is refused as superseded if and only if the lineage was severed |
| Renewal.SupersededOnlyAfterLoss | internal/garam/renewer.go:56-81 | From a whole lineage, a superseded refusal means that an answer or a store was lost, the process died between them, or a mint crossed a renewal or was itself lost, on the way |
| Renewal.SeveredTraces | internal/garam/renewer.go:56-81 | A lineage once whole is severed by one of those steps and nothing else |
| Renewal.AskMoves | internal/garam/client.go:161-178 | A renewal too early, superseded or unanswered moves neither lineage nor Secret; one in its window with the head has exactly the next certificate issued |
| Renewal.NoRetryRecovers | internal/garam/renewer.go:66-69 | Only a stored mint mends a severed lineage, or an attempt made while the files still show a mint that was overwritten |
| Renewal.LagBeyondInterval | internal/garam/renewer.go:29-36 | With a lag beyond the interval there is a run without any failure or loss whose next attempt is refused as superseded |
| Renewal.RestartWithinLag | internal/garam/renewer.go:44-49 | A process that starts within a lag of the last store can be refused with nothing lost |
| Renewal.MintWithinLag | internal/garam/renewer.go:29-36 | An attempt within a lag of a mint can be refused with nothing lost |
| Renewal.SecretHoldsOnePair | internal/garam/credentialstore/secret.go:43-58 | Over every run the Secret holds the certificate and the key of its last write and of no two, and its other keys as before the first |
| Renewal.PatchReplacesBoth | internal/garam/credentialstore/secret.go:43-58 | One patch replaces both keys and touches nothing else |
| Renewer.Renewer.RenewIdentity | internal/garam/client.go:161-178 | An issued credential is the new head; too early and superseded are told apart, are never answered with one, and move nothing |
| Renewer.Renewer.ReplaceCredential | internal/garam/credentialstore/secret.go:43-58 | The Secret becomes the merge of the two-key patch, or stays where the write failed |
| Renewer.Renewer.Renew | internal/garam/renewer.go:56-81 | One renewal takes only steps of the machine and leaves nothing in hand; unless severed, what the Secret holds is the head; a head presented in its window with every call getting through is replaced by a new head, and one already replaced by nothing |
| Values.ReadValues | internal/garam/client.go:318-337 | For every order the map is visited in, the pins are exactly the non-empty names under tools.pins. with their values and the ignored keys exactly the others, distinct and in the lexicographic order of their characters |
| Values.LessIsLexicographic | internal/garam/client.go:332-334 | The order sorted by is lexicographic: decided at the first place two keys differ, a prefix first |
| Values.OrderDoesNotMatter | internal/garam/client.go:332-334 | Two visits of one map report the same ignored keys in the same order |
| Values.ReadingLosesNothing | internal/garam/client.go:318-337 | Keys read and keys ignored partition the input, and re-prefixed pins plus the ignored part rebuild it |
| Values.ValuesDoNotInterfere | internal/garam/client.go:309-352 | Definitions agreeing on the pins give the same constructed spec and the same workload, and the image is the operator's configuration |
| Values.ReadDefinitions | internal/garam/client.go:52-66 | Every definition in order, or an error exactly when one names no agent or claims it at an epoch below 1 |

## Left out

- HTTP, TLS, X.509, PEM and JSON decoding: their results are datatypes; a refusal is modelled by its kind, not by its status code.
- SHA-256 and YAML marshalling: function values of the configuration, injective or total only where a lemma says so.
- Operator.World.ClaimDefinition: garam's side and the meaning of its answer; that the client reads a conflict off status 409 is not modelled.
- Operator.World.IssueAgentCertificate: likewise; that the client reads a refusal off status 403, and an answer without its certificates as a failed call, is not modelled.
- Operator.World.ReportProvisioningState: likewise; that the client tells stale off the kind before it looks at the status is not modelled.
- Logs, messages and error texts: a condition's message keeps only what it depends on.
- Namespaces: one namespace, so names alone identify objects.
- `reportServerRoot` and `certificateFingerprints`: they store and change nothing.
- A changed `storageClassName` is not reported by Synced, and Synced here says nothing about it.
- The inner slices of a container and of the Pod (mounts, variables, volumes) are values: each is assigned a fresh list before anything is appended to it, so no stale pointer can arise there.
- What the init containers' commands do on a node, the kubelet's projection beyond its lag, and Pod admission.
- The informer cache, leader election, and the work queue's rate limits: reads are current, there is one process at a time, and a queued key may be taken at any time.
- Flag parsing and wiring in cmd/main.go.
- Convergence.ThirdPassDoesNothing: for an agent held by another operator with no credential here the code asks garam for a certificate on every pass, so the claim about certificate calls is for agents this operator holds.
- Features.TextStaysInConfig: the builder never writes the variables of the credentials container, so of that container it speaks only where nobody else wrote any.
- Operator.PollerLoop.List: the list is answered already read; Values.ReadDefinitions states how an answer becomes that list.
- Values.ReadDefinitions: the ignored keys, which the code carries only to log them, are stated on Values.ReadValues.
