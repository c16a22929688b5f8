# Managed Kubernetes storage: a verified model

The system attaches cloud disks to virtual machines for Kubernetes. Four parties take part:

- the **platform engine** keeps volumes and attachments in a database; its API calls and its reconcile runs are serialized
  transactions;
- the **cloud** keeps the disks, in a store of its own; a provider call may fail before its effect or lose its answer after it;
- one **node agent** per machine runs one RPC at a time over a journal and a mount table, both of which outlive a crash;
- the **controller adapter** turns platform answers into CSI replies.

Its central promise: a single-writer volume is never mounted on two machines, and never detached while mounted, through
crashes, lost answers and changes made behind its back. No one component decides that promise. It rests on a chain - host
mount, journal entry, durable use, live attachment, cloud attachment - and this project proves the chain in every state
that any run can reach.

## How it is laid out

| file | content |
|---|---|
| Model, Provider, Host, Wire, Linux | entities; the cloud, the simulated host, the publish context and the format decision |
| Calls, Invariants | every API call as a function of the platform state; what it keeps |
| Reconciling, Passes, Replay | reconcile items, the order-free closed form of a run, order, interruption and repetition |
| Engine, Audit | the engine class: transactions and map loops proved equal to the functions; the audit log |
| Nodes, NodeInvariant, NodeSteps, NodeCalls, Agent | the agent as micro-steps, its invariant, and the agent class proved equal to its micro-steps |
| Backing | how the cloud backs the platform, and that every call and item keeps it so |
| System, SystemInvariant | the whole system as events, the inductive invariant, its preservation over all runs |
| Safety, Forever, Troubles, Convergence, EndToEnd, Turns, Progress, Drain, Scopes | the promises |
| Memory, Records, Limits | what is promised only up to certain events, and exactly which |
| Acceptance, Places, Admission, Probing, Outcome, Retry | operation by operation: when it is granted, what it then does, what it reports |
| Topology, Controller | placement and the controller class |
| Life, Sequels | concrete runs that reach the states the promises, and their limits, speak of |

A run (`Systems.Run`) is any sequence of events; an event that is not possible in a state leaves it as it is. `Inv` holds in
every state a run can reach from `Init` (`InitHolds`, `RunKeeps`), so a lemma that requires `Inv` speaks of all of them.
A Go `range` over a map is a loop that takes the keys in any order.

## Assumptions

- New identifiers are well formed and not yet used by any object.
- In the instance registry each key is its entry's own non-empty ID, and only `Active` changes, while no reconcile run is open.
- Only node i's agent calls the API as node i.
- An API call may lose its answer, but has no effect after its caller has seen the outcome.
- Drift (something outside detaching or deleting a disk) does not fall between the two provider calls of one item, and an
  outside write to a device does not fall between a node's probe of it and its mkfs.
- The generation counter does not wrap, and the audit sequence stays below 2^64.
- Staging, target and unmount paths arrive with the verdict of the path check; the use fingerprint may be any function.

Where the provider errors carry text, `Failed(text)` stands for it; a host or journal failure is answered with one code.

## Model

| member | source | states |
|---|---|---|
| Safety.SingleWriter | internal/platform/engine.go:166-178 | After any run - node micro-steps, crashes, lost answers, dropped reconcile transactions and drift interleaved - a volume is mounted on at most one node, in the volume's own region and zone, and a cloud disk attached anywhere is attached to that node |
| Safety.AttachedInZone | internal/platform/engine.go:160-162 | In every reachable state every attachment joins a volume to a machine of its own region and zone |
| Safety.MountsAreChained | internal/driver/node.go:110-136 | In every reachable state each mount sits at a path of its volume's journal entry, whose use is counted by a live attachment of that volume, node and generation; on an untouched disk the cloud is attached by that attachment |
| Safety.InUseIsLeftAlone | internal/platform/engine.go:325-332 | No event of the system creates, removes, attaches, detaches or shrinks the disk of a volume that is in use, even when drift has already moved the disk |
| Safety.DetachBarrier | internal/platform/engine.go:242-255 | However long a volume stays mounted somewhere and whatever else happens, short of drift on its own disk, the disk stays present and attached where it was |
| Safety.NeverRecreated | internal/platform/engine.go:290-305 | Once a volume is durably past creation and its disk is missing, no continuation of the run ever makes a disk for it again |
| Safety.JournalsAndMountsAgree | internal/driver/node.go:101-109 | In every reachable state the paths of different journal entries are disjoint, every mount has its entry's source, mode and read-only flag with its stage mounted, and the host effect about to happen meets no collision |
| Safety.CloudAgrees | internal/provider/provider.go:72-119 | In every reachable state an attached disk names a live attachment of its volume to that instance, a volume has at most one live attachment, and none once its deletion is requested |
| Safety.RunEvolves | internal/platform/engine.go:90-266 | Between any two points of a run volumes keep identity, specification, device key, and never-decreasing generation, size and goal; attachments move only forward; tombstones and detached attachments do not change |
| SystemInvariant.StepKeeps | internal/platform/engine.go:56-362 | Every event, possible or not, keeps the system invariant |
| SystemInvariant.RunKeeps | internal/platform/engine.go:56-362 | The invariant holds after any run from any state that has it |
| SystemInvariant.InitHolds | internal/platform/engine.go:26-30 | Empty stores with idle nodes satisfy the invariant |
| SystemInvariant.EngagedIsSecured | internal/driver/node.go:123-126 | A node that mounts a volume, or is about to, has a live attachment of that volume bound to it with a recorded use |
| SystemInvariant.OneEngagedNow | internal/platform/engine.go:166-172 | Two nodes that mount one volume, or are about to, are the same node |
| Acceptance.UseAcceptedIff | internal/platform/engine.go:208-264 | A use operation is accepted if and only if the machine is registered, active and in scope, the proof names an attachment of that volume, machine and generation, and, but for a release, it is attached with no error on it or on its volume and the request is in order |
| Acceptance.UseEffect | internal/platform/engine.go:242-265 | An accepted use operation changes one set of uses, or withdraws one leave to format, or nothing, and shows the records as it leaves them |
| Acceptance.AttachAcceptedIff | internal/platform/engine.go:151-174 | An attachment is granted if and only if the volume is the caller's, available and without error, the machine is the caller's, active and in the volume's region and zone, and whoever has the volume is that machine and stays |
| Acceptance.AttachEffect | internal/platform/engine.go:166-178 | Granting shows the attachment that is there or makes one with the next generation, and changes nothing else |
| Acceptance.DetachEffect | internal/platform/engine.go:179-202 | A detach request makes the newest attachment in scope drain if it is live and the caller's, and changes nothing else |
| Acceptance.DeleteAcceptedIff | internal/platform/engine.go:121-136 | A delete is granted if and only if the volume is unknown, or the caller's and without a live attachment |
| Acceptance.DeleteEffect | internal/platform/engine.go:133-141 | It marks that volume for deletion, keeps tombstones, and changes nothing else |
| Acceptance.ResizeAcceptedIff | internal/platform/engine.go:142-145 | A resize is granted if and only if the volume is the caller's, created, not to be deleted, and does not shrink or exceed the bound |
| Acceptance.ResizeEffect | internal/platform/engine.go:146-149 | It moves that volume's goal and changes nothing else; the volume is available only if it has reached it |
| Acceptance.CreateAcceptedIff | internal/platform/engine.go:102-117 | A create is granted if and only if what it asks for is lawful and whatever has its name is just that and not to be deleted |
| Acceptance.CreateEffect | internal/platform/engine.go:109-120 | Granting shows the volume that has the name or begins one without a disk and with leave to format |
| Acceptance.LookEffect | internal/platform/engine.go:121-132 | A caller sees its own volumes, and looking changes nothing |
| Acceptance.LookForAttachment | internal/platform/engine.go:179-198 | A caller sees its own attachments, and looking changes nothing |
| Acceptance.InstanceShown | internal/platform/engine.go:41-47 | An instance is shown to its own scope, or to itself, and only while it is active |
| Acceptance.RolesAreSeparate | internal/platform/engine.go:90-96 | Machines only use, controllers only manage, nobody else does anything, and a rejection changes nothing |
| Places.EveryVolumeIsLawful | internal/platform/engine.go:102-108 | In every reachable state every volume has a well-formed name, a size within bounds, the one kind, a configured place and one of the three forms |
| Replay.MapOrderIrrelevant | internal/platform/engine.go:276-359 | For any well-formed platform, any cloud contents and any faults, every order of the two loops ends in the same platform and the same cloud |
| Replay.CrashReplay | internal/platform/engine.go:268-362 | Stop a run after any items and drop the transaction: the next faultless run ends exactly where one uninterrupted faultless run would have |
| Replay.CommitReplay | internal/platform/engine.go:268-362 | A faulty run that commits what it believes is forgotten by the next faultless run |
| Replay.FaultsLeaveNoTrace | internal/platform/engine.go:268-362 | Any sequence of interrupted and faulty runs followed by one faultless run equals that faultless run alone |
| Replay.SecondRunChangesNothing | internal/platform/engine.go:268-362 | From any cloud contents a second faultless run changes nothing |
| Replay.MidwayOk | internal/platform/engine.go:276-359 | At any point of a run, for any cloud contents and faults, the transaction's copy is a well-formed platform |
| Reconciling.ReplayDropped | internal/platform/engine.go:276-359 | For one volume, its live attachment and its disk: after any partial faulty pass whose beliefs are dropped, a faultless pass gives what it would have given at once |
| Reconciling.ReplayCommitted | internal/platform/engine.go:276-359 | The same when the faulty pass commits its beliefs |
| Reconciling.ReplayLive | internal/platform/engine.go:320-359 | Half of the replay: attaching or detaching does not disturb the volume pass, and resizing does not disturb the attachment pass |
| Passes.VolumeAdvances | internal/platform/engine.go:276-319 | Taking any volume next, the first loop arrives at the order-free closed form with that volume added |
| Passes.AttachmentAdvances | internal/platform/engine.go:320-359 | Taking any attachment next, the second loop does too; this needs at most one live attachment per volume |
| Convergence.ReconcileConverges | internal/platform/engine.go:270-362 | From any reachable state, one committed reconcile without provider faults, its items in any order and nodes busy in between, settles every undisturbed volume and takes each of its live attachments as far as uses and machine allow |
| Convergence.CommittedRun | internal/platform/engine.go:270-362 | A reconcile that commits, item by item among node events, does to platform and cloud what the closed form says |
| Convergence.VolumesSettle | internal/platform/engine.go:276-319 | After a faultless run no undisturbed volume is creating, resizing or deleting: it is available at its desired size, or deleted with its disk gone |
| Convergence.AttachmentsArrive | internal/platform/engine.go:320-359 | After a faultless run an attachment is attached if wanted on an active machine, detached if draining and unused, still attached if draining and in use, fenced if its machine is inactive |
| Outcome.VolumeOutcome | internal/platform/engine.go:276-319 | From any reachable state, drift or not, and under any faults, a committed reconcile leaves every volume as reported: available at its goal with its disk there, gone, lost, or with the failure of the very call that failed |
| Outcome.AttachmentOutcome | internal/platform/engine.go:320-359 | Likewise every live attachment: attached, detached, still draining in use, fenced, robbed of its disk, waiting for its volume, or with the failure of the very call that failed; and its disk is held accordingly |
| Outcome.ClearMeansThere | internal/platform/engine.go:290-297 | After a committed reconcile without provider faults a volume that is not to be deleted is free of error if and only if its disk is there |
| Outcome.LossIsReported | internal/platform/engine.go:295-297 | A created volume whose disk has gone is reported as lost, not answered as created, and cannot be attached |
| Outcome.ForeignDeviceIsNotAdopted | internal/platform/engine.go:307-310 | A disk of another identity is never taken for the volume's own, and that is on record |
| Outcome.AttachedDiskIsNotDeleted | internal/provider/provider.go:77-79 | A disk that is attached to anything is not deleted, nor is the volume reported as deleted |
| Outcome.ForeignHolderIsLeftAlone | internal/provider/provider.go:93-113 | A disk that somebody else holds is neither attached nor detached on an attachment's behalf |
| Troubles.ErrorsAreExplained | internal/provider/provider.go:72-119 | In every reachable state no volume reports a disk still attached or a changed device, no attachment a writer conflict or mismatched identity; a lost disk is reported only where drift took it |
| Forever.InitializedForGood | internal/platform/engine.go:256-261 | After MarkInitialized commits for a volume, no later event on any node formats it |
| Forever.FormattingIsGranted | internal/host/linux.go:142-160 | mkfs happens only on a blank device whose volume still carries its leave, and only on the one node secured by a live attachment |
| Forever.FormattedOnce | internal/host/linux.go:150-166 | After mkfs, even if the agent dies before MarkInitialized, no node formats the device again unless something outside wipes it |
| Forever.OnlyFormattingWrites | internal/host/linux.go:106-167 | No event but mkfs or an outside rewrite changes what a probe of a device finds |
| Forever.LatestFindsTheLive | internal/platform/engine.go:182-188 | In any scope that covers it the search for the highest generation finds the live attachment, which carries the volume's counter; all others carry less |
| Forever.StaleProofsFail | internal/platform/engine.go:220-248 | Once an attachment is detached, no later node call that names it succeeds, except a release, which changes nothing |
| Forever.CreationIsIdempotent | internal/platform/engine.go:109-120 | From the first answered create on, the same create returns the same volume and creates nothing, exactly until deletion is requested; then it is refused for ever |
| Forever.SizeChain | internal/platform/engine.go:299-313 | In every reachable state mount size <= platform size <= disk size <= goal <= 2^50 for a mounted volume; AVAILABLE means size equals goal, RESIZING means it is smaller |
| Forever.DisksNeverShrink | internal/provider/provider.go:63-67 | Over any run the disk of a created volume never shrinks while it exists |
| EndToEnd.UnpublishedEndToEnd | internal/driver/controller.go:144-156 | When unpublish answers OK its scope (one node, or all of them) has no live attachment of the volume, no attached disk and no mount |
| EndToEnd.PublishedEndToEnd | internal/driver/controller.go:116-143 | When publish answers OK the attachment is live on the node, the node is in the volume's region and zone, and an undisturbed disk is attached by it |
| EndToEnd.DeletedEndToEnd | internal/driver/controller.go:103-115 | When delete answers OK the disk is gone, nothing mounts the volume, and no later event brings the disk of that volume back |
| EndToEnd.ExpandedEndToEnd | internal/driver/controller.go:173-188 | When expand answers OK platform and disk have at least the required size, and no error is on record |
| EndToEnd.NodeOkMeans | internal/driver/node.go:78-319 | Over all runs, an OK from a node RPC that did work means what the RPC is for: stage mounted and its use held; target bound as noted; target gone; no mount, no record and the use given back; every mount of the volume at the recorded size, which is at least the required one |
| EndToEnd.NothingToUndo | internal/driver/node.go:214-246 | An OK given without work means there was nothing to unmount: no mount of the volume at all, or none at the target but its own stage |
| Admission.StageTakenUpIff | internal/driver/node.go:78-109 | A stage is taken up if and only if the path is free of other volumes and the caller's proof and capability are in order and those of the record, if there is one; the platform is then asked with exactly that proof |
| Admission.PublishTakenUpIff | internal/driver/node.go:139-183 | A publish is taken up if and only if the volume is staged and ready at that path with the proof and capability the caller shows, a pod is named, and the target is unclaimed or on record just so |
| Admission.UndoneIff | internal/driver/node.go:201-252 | An unpublish or unstage does something if and only if there is something on record to undo and nothing in the way; what is not on record is already done |
| Admission.ExpandTakenUpIff | internal/driver/node.go:265-295 | An expand is taken up if and only if it asks for something and names a path where the node has the volume ready |
| Admission.PublishShowsProof | internal/driver/node.go:166-169 | In every reachable state a publish that is taken up shows the attachment and generation the volume is staged with, and the volume's own mode and file system |
| Admission.StalePublishFails | internal/driver/node.go:166-191 | Once an attachment is detached, no later publish with its context is ever answered OK on any node, whatever happens meanwhile |
| Admission.AcceptedIsFree | internal/platform/engine.go:246-248 | An accepted use operation other than a release finds neither error nor deletion request on the attachment or its volume |
| Admission.TroubleStopsTheNode | internal/platform/engine.go:246-248 | In every reachable state a node waiting to acquire, publish, expand or mark is stopped, not OK, by an answer given while an error is on record, and the platform is as it was |
| Probing.OwnIsMounted | internal/host/linux.go:129-167 | On a probing host a device that carries the volume's own file system is mounted in two turns and left as it is |
| Probing.BlankIsFormatted | internal/host/linux.go:142-167 | A blank device with leave is formatted and mounted in three turns, and carries the file system |
| Probing.OthersAreRefused | internal/host/linux.go:313-329 | Any other device is refused at once, with nothing mounted and nothing written |
| Probing.StagingSucceedsAnywhere | internal/driver/node.go:78-138 | On any host, probing or not, staging with a usable context answers OK with the volume mounted and its record ready, unless the device must not be touched |
| Probing.StagingRefuses | internal/driver/node.go:126-128 | For such a device staging stops at the probe, not OK, with nothing mounted and nothing written |
| Retry.CreateThenOk | internal/driver/controller.go:93-101 | A create that is granted is answered after one committed reconcile without provider faults, with the goal's size and the place asked for |
| Retry.PublishThenOk | internal/driver/controller.go:134-142 | A publish that is granted is answered after the reconcile, with the context of its attachment |
| Retry.PublishAnswered | internal/driver/controller.go:134-142 | So is one for any live attachment that is wanted, on an active machine, of a volume whose disk nobody took |
| Retry.ExpandThenOk | internal/driver/controller.go:180-187 | An expand that is granted is answered after the reconcile with the size asked for |
| Retry.DeleteThenOk | internal/driver/controller.go:107-114 | A delete that is granted is answered after the reconcile, and the disk is gone |
| Progress.StagingSucceeds | internal/driver/node.go:78-138 | On a host that need not probe, with the context of a healthy attachment, a free path and no faults, staging answers OK with the volume mounted at the path and its record ready |
| Progress.PublishingSucceeds | internal/driver/node.go:139-200 | Publishing a volume in service to a free target answers OK with its stage bound there, read-only if so asked |
| Progress.UnpublishingSucceeds | internal/driver/node.go:201-229 | Without faults, unpublishing answers OK with the target unmounted and forgotten |
| Progress.ExpandingSucceeds | internal/driver/node.go:286-319 | Expanding a volume in service whose platform size is within the bounds answers OK with every mount of it at that size |
| Drain.DrainCompletes | internal/platform/engine.go:320-332 | A draining attachment nobody uses is gone after one committed faultless reconcile, and unpublish answers OK for every scope |
| Drain.WholeDrain | internal/driver/controller.go:144-156 | After any run in which no use was forgotten: request the detach, let the node unstage, let one faultless reconcile commit, and unpublish answers OK |
| Progress.UnstagingSucceeds | internal/driver/node.go:230-264 | Without published targets and faults, unstaging answers OK with no mount, no record and the use given back |
| Scopes.ScopesCommute | internal/platform/engine.go:38-47 | Calls by principals of different scopes commute on the platform state |
| Scopes.CallIsLocal | internal/platform/engine.go:90-266 | A call does in its own scope what it would do if that scope were alone, and leaves every other scope exactly as it was |
| Scopes.AnswersAreLocal | internal/platform/engine.go:90-266 | A call is answered as if its scope were alone, unless it addresses an object of another scope, and then it is refused with PermissionDenied |
| Memory.ForgottenIff | internal/driver/node.go:110-125 | From any state in which every counted use is recalled by its node, an event breaks that if and only if it is an accepted acquire whose answer is lost, or a failed save or a crash between the answer and the journal, of a volume the journal does not have |
| Memory.RunRemembers | internal/driver/node.go:110-125 | In a run without those three events every use stays recalled |
| Memory.UnstageLeavesNoUse | internal/driver/node.go:230-264 | In every run from empty stores without those three events, an unstage that answers OK, with or without work, leaves no use of the volume on that node |
| Memory.UnstagingDoesNotHelp | internal/driver/node.go:243-246 | A forgotten use stays counted, and unstage answers OK without giving it back |
| Records.StageUnmountedIff | internal/driver/node.go:253-255 | A mounted stage whose volume the journal knows is unmounted in a step if and only if the step is the host effect of an unstage of that volume |
| Records.ReadyUnmountedIff | internal/driver/node.go:253-262 | While every ready record has its stage mounted, a step breaks that if and only if it is the host effect of an unstage of a ready volume |
| Records.ReadyStaysMounted | internal/driver/node.go:132-136 | In a run without such a step a ready record implies its mount throughout |
| Records.SizesSplitIff | internal/host/host.go:54-72 | While the mounts of a volume on a node have one size, a step makes them differ if and only if it binds a new target while the recorded size is not the size of the mounted stage |
| Limits.LimitExceededIff | internal/driver/controller.go:71-101 | After a create that kept to its limit, the same create later reports more than the limit if and only if an accepted resize of that volume beyond the limit lies between |
| Sequels.LimitCanBeExceeded | internal/driver/controller.go:79-101 | A concrete run in which a create is answered with one byte, the volume is resized, and the same create is answered with two |
| Sequels.LifeCanForget | internal/driver/node.go:110-125 | A concrete run reaches states in which each of the three forgetting events happens |
| Sequels.ReadyCanLackItsMount | internal/driver/node.go:253-262 | A concrete run in which the agent dies inside unstage and leaves a ready record without its mount |
| Sequels.SizesCanDiffer | internal/driver/node.go:307-317 | A concrete run in which an expand whose last save fails, then a publish, leave two mounts of one volume with different sizes |
| Life.WholeLife | internal/driver/node.go:78-138 | A concrete run from empty stores in which a volume is created, provisioned, attached, formatted, mounted and reported, passing through the states the promises speak of |
| Controllers.UnpublishedMeansGone | internal/platform/engine.go:179-202 | Unpublish answers OK if and only if no live attachment of the volume is left in its scope and the latest one, if any, is the caller's; it then changes nothing |
| Controllers.PublishedIsUsable | internal/driver/controller.go:127-142 | In the state in which a publish context was issued, the acquire request the target node builds from it is accepted |
| Controllers.CreatedIsLargeEnough | internal/driver/controller.go:93-101 | A volume reported as created was already there, changes nothing, and has at least the requested bytes, the requested place and specification |
| Controllers.Controller.CreateVolume | internal/driver/controller.go:19-102 | Exactly the well-formed requests within their own limit and with known parameters reach the platform, as the request they stand for; others are refused with the source's code and change nothing; an answer names an attachable volume of the requested specification and capacity |
| Controllers.Controller.CommonMode | internal/driver/controller.go:26-38 | One supported mode shared by every capability, or none |
| Controllers.Controller.ReadKind | internal/driver/controller.go:83-92 | The requested type, or the standard one, or a refusal if any parameter is unknown, in any map order |
| Controllers.Controller.DeleteVolume | internal/driver/controller.go:103-115 | State and reply are those of the delete call; an answer means the volume is absent or deleted |
| Controllers.Controller.ControllerPublishVolume | internal/driver/controller.go:116-143 | Refused inputs, a failed first call and a capability that is not the volume's change nothing and are refused with the source's code; otherwise state and reply are those of the attachment call; an answer means nothing changed |
| Controllers.Controller.ControllerUnpublishVolume | internal/driver/controller.go:144-156 | State and reply are those of the detach request; an answer means no live attachment in scope |
| Controllers.Controller.ControllerExpandVolume | internal/driver/controller.go:173-188 | Refused inputs change nothing and carry the source's code; otherwise state and reply are those of the resize call; an answer has at least the required capacity |
| Topologies.Choose | internal/driver/controller.go:39-70 | The place of the first preferred, then required, topology that names region and zone and satisfies a requirement; none only if there is no such |
| Invariants.ApplyKeeps | internal/platform/engine.go:90-266 | Every API call, accepted or rejected, keeps the platform well formed and moves it only forward |
| Invariants.AtMostOneLive | internal/platform/engine.go:166-178 | A volume has at most one live attachment |
| Invariants.LatestIsLive | internal/platform/engine.go:179-188 | The highest generation in a scope is unique, and is the live attachment's if the scope has one |
| Engines.Engine.Call | internal/platform/engine.go:56-89 | One serialized call leaves exactly the specified state and reply; a rejection changes nothing; exactly one audit entry is added and none overwritten |
| Engines.ApplyVolume | internal/platform/engine.go:97-150 | The volume operations, ranging over the maps in any order, compute the specified reply and state |
| Engines.ApplyAttachment | internal/platform/engine.go:151-202 | The attachment operations do too |
| Engines.ApplyNode | internal/platform/engine.go:208-219 | The node operations do too, behind the instance check |
| Engines.ApplyUse | internal/platform/engine.go:220-265 | Proof, use and health checks in the source's order compute the specified reply and state |
| Engines.FindLive | internal/platform/engine.go:48-55 | Finds a live attachment of the volume if there is one, in any map order |
| Engines.FindLatest | internal/platform/engine.go:182-188 | Finds an attachment of highest generation in scope if there is one, in any map order |
| Engines.FindNamed | internal/platform/engine.go:109-117 | Finds an owned volume of that name if there is one, in any map order |
| Engines.Engine.ReconcileVolume | internal/platform/engine.go:276-319 | The volume loop's body is the specified item, on the platform copy and on the cloud |
| Engines.Engine.ReconcileAttachment | internal/platform/engine.go:320-359 | The attachment loop's body is the specified item |
| Engines.Engine.Reconcile | internal/platform/engine.go:270-362 | A run that may die after any number of items leaves the cloud at the closed form of what it did, and writes the platform only when it gets to the end |
| Provider.Fake.EnsureVolume | internal/provider/provider.go:54-71 | Creates or grows the one disk it names, never shrinks it, and may lose its effect or its answer |
| Provider.Fake.DeleteVolume | internal/provider/provider.go:72-83 | Removes the one disk it names unless it is attached |
| Provider.Fake.EnsureAttached | internal/provider/provider.go:84-101 | Attaches an existing disk that is free or already held by the same attachment; otherwise changes nothing and says why |
| Provider.Fake.EnsureDetached | internal/provider/provider.go:102-119 | Detaches a disk held by this attachment; a free or missing disk is a success, another holder a refusal |
| Provider.Fake.GetVolume | internal/provider/provider.go:41-53 | Shows the disk, or fails |
| Hosts.Simulated.Stage | internal/host/host.go:38-53 | Mounts the volume at a free path, accepts an equal mount there, and refuses a different one |
| Hosts.Simulated.Publish | internal/host/host.go:54-72 | Mounts the volume's stage at a free target, accepts an equal mount there, and refuses a different one or a missing stage |
| Hosts.Simulated.Unmount | internal/host/host.go:73-81 | Removes exactly the mount at the path |
| Hosts.Simulated.Expand | internal/host/host.go:82-99 | Sets the size of every mount of the volume and of no other, in any map order |
| Linux.FormatRequired | internal/host/linux.go:313-329 | Formats exactly a blank device of a supported file system with leave; mounts exactly one whose every signature is that file system; refuses everything else |
| Linux.DecideFormat | internal/host/linux.go:313-329 | The loop over the signatures decides the same |
| NodeInvariant.NoCollision | internal/host/host.go:44-67 | In a sound node the stage and target collision branches are never taken |
| NodeInvariant.NodeFrame | internal/driver/node.go:110-136 | A node stays sound while the platform moves forward and keeps the node's uses, except on a volume the node neither mounts nor relies on |
| NodeSteps.BeginKeeps | internal/driver/node.go:78-109 | Accepting or refusing an RPC keeps the node sound |
| NodeSteps.SaveKeeps | internal/driver/node.go:118-136 | A journal save, done, failed or cut off, keeps the node sound |
| NodeSteps.HostKeeps | internal/driver/node.go:196-198 | A host effect, done, failed or cut off, keeps the node sound |
| NodeCalls.AnswerKeeps | internal/driver/node.go:256-262 | A node's own call, its answer heard or lost, keeps the node sound on the platform the call leaves |
| NodeCalls.BystanderKeeps | internal/platform/engine.go:208-266 | A node's call keeps every other node sound |
| NodeCalls.AcceptedIsLive | internal/platform/engine.go:246-255 | An accepted use operation other than a release was proved by a live attachment of that node, volume and generation, and its use is held afterwards |
| Agents.Agent.NodeStageVolume | internal/driver/node.go:78-138 | The RPC, with any faults, is exactly its micro-steps: acquire, save, mount, mark, save, with exactly those requests |
| Agents.Agent.NodePublishVolume | internal/driver/node.go:139-200 | The RPC is exactly its micro-steps: record, save, bind |
| Agents.Agent.NodeUnpublishVolume | internal/driver/node.go:201-229 | The RPC is exactly its micro-steps: unmount, save |
| Agents.Agent.NodeUnstageVolume | internal/driver/node.go:230-264 | The RPC is exactly its micro-steps: unmount, release, save |
| Agents.Agent.NodeExpandVolume | internal/driver/node.go:286-319 | The RPC is exactly its micro-steps: check, expand, save; an OK carries the recorded size, at least the required one |
| Agents.FindOther | internal/driver/node.go:105-109 | Says whether another entry stages or publishes at the path, in any map order |
| Agents.FindTaken | internal/driver/node.go:174-179 | Says whether any entry stages at the target or another one publishes there, in any map order |
| Backing.VolumeStepKeeps | internal/platform/engine.go:276-319 | A volume item, whatever faults it meets, keeps the platform copy sound, its intents unchanged, and every disk accounted for |
| Backing.AttachmentStepKeeps | internal/platform/engine.go:320-359 | An attachment item does too |
| Backing.DroppedIsBacked | internal/platform/engine.go:268-271 | Dropping a transaction is harmless: the cloud it leaves still fits the platform it started from |
| Wire.GenerationReadsBack | internal/driver/common.go:76-82 | Every uint64 generation printed in decimal parses back to itself |
| Wire.ContextReadsBack | internal/driver/common.go:76-82 | The proof parsed from a publish context names exactly the attachment it was issued for |
| Wire.DecimalIff | internal/driver/common.go:76-82 | Text stands for a number exactly when it is all digits |
| Wire.ProofIff | internal/driver/common.go:76-82 | A context proves something exactly when its generation is a number from 1 to the largest uint64 and its attachment a well-formed identifier, and then it proves that |
| Wire.ModeOf | internal/driver/common.go:53-75 | Yields a mode exactly for single-writer block access, or single-writer mount access as ext4 or xfs without flags or group; ext4 by default |
| Audit.HexFaithful | internal/store/store.go:61-69 | Over all uint64 the order of keys is the order of numbers, and equal keys come from equal numbers |
| Audit.FormatSequence | internal/store/store.go:61-69 | The fill loop writes the sixteen hexadecimal digits |
| Audit.AuditLog.Append | internal/store/store.go:49-60 | Adds exactly one entry under a new key and overwrites none |

## Left out

- Transport, TLS, JSON, gRPC serving, flags, mains, the demo, scripts and templates: an API call is an engine call whose answer may be lost.
- The database and its encoding: a transaction is all or nothing over a value, and writing then reading is the identity.
- SHA-256 in the use fingerprint and randomness of new identifiers: any function, and any fresh identifier.
- Linux commands, the kernel mount table and device discovery: only the format decision and its place between probe, mkfs and mount are modelled; a block stage is entered in the mount table as the simulated host does it, and the real host's mount checks are the simulated ones.
- The path check against the file system: its verdict is an input.
- Identity, capability, validation and statistics RPCs and the error-code table: each is settled by reading one branch.
- Pod name, namespace and service account: they are carried to the audit log and decide nothing.
- Concurrent API calls within one controller RPC: the class makes its calls one after another; the volume's specification, which is all the first call is used for, never changes.
- Fencing of an inactive machine: the source does not implement it, and an attachment that needs it is only reported.
- Safety.NeverRecreated: says nothing of a volume still being created, whose first disk may be made again after drift, as in the source.
