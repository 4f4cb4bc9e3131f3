# plugin-kubevirt: a verified model

This project models the lifecycle core of `candy/plugin-kubevirt`, which runs a deploy as a KubeVirt
VirtualMachine and reaches its guest over a managed `virtctl port-forward`. It has five connected parts.

| part | modules | what it is about |
|---|---|---|
| supervised port-forward | `Supervisor`, `ProbeWindow`, `PortForward`, `PortForwardArgv`, `Decimal` | the shell loop step by step among arbitrary child exits and listener drops; the start / reuse / reap / stop protocol on pidfiles; the argument vector and its parser |
| cluster writes | `ApiServer`, `RunStrategy`, `ClusterOps`, `JsonValues` | a store of JSON objects with resource versions, written to by others between our requests; merge patch against read-modify-write |
| polling | `Polling`, `Clock` | the nine bounded get-and-sleep loops as one loop with nine readings |
| rendering and validation | `Entity`, `Gpus`, `NormalForm`, `Render`, `RenderedFields`, `Validate` | the renderer against a normal form with a decoder, and its CR field by field; the deep validator against its rules |
| venue | `Venue`, `VenueRuns`, `VenueOutcomes`, `VenueIsolation` | prepare-venue, state switch and post-teardown over one world made of the above, when they succeed, and runs of them over many deploys |

Methods follow the Go code branch by branch and are proved against specifications; lemmas state what those
specifications guarantee. `dafny verify dfyconfig.toml` checks everything.

## What the code does that its comments do not say

- `stopPortForwardByPidfile` and the teardown that uses it are described as stopping the port-forward. They
  signal the supervisor alone, so a running virtctl survives, out of reach of every later start and pidfile
  stop (`OrphanOutlivesEveryCall`). What is left of a directory's processes, also by earlier stops, is in
  `PidfileStopEmptiesDirIff` and `StopEmptiesDirIff`; `EarlierChildSurvives` is a run.
- `startVirtctlPortForward` is described as reusing a live supervisor. It does so only when the asked port
  answers with "SSH-" (`LiveForwardIsReusedIff`), and does not ask which forward answers: a supervisor
  launched for another request is handed out (`ReuseMayServeAnotherRequest`; `RequestIsServedIff` is the
  exact condition).
- `Stop` through a handle that is no longer current unlinks its successor's pidfile
  (`StaleStopLeaksASupervisor`; `StopIsSafeIffCurrent` is the exact condition).
- `kvState` and `kvPostTeardown` recompute namespace and connection. Nothing writes the prior state they
  read, so a deploy outside the ambient cluster's default namespace is not reached (`RecomputedIffDefault`,
  `UnreachedVmSurvives`, `NamespacedVmOutlivesTeardown`).
- Authored disks are copied unchecked, so a disk may name no volume or repeat a name
  (`DisksNameVolumesIff`, `DiskNamesAreDistinctIff`, `AuthoredDiskDangles`).
- Every DataVolume template is called "boot", so deploys with distinct VM names share one DataVolume name in
  a namespace (`DataVolumesCollideIff`), and the standalone DataVolume is one no CR refers to
  (`StandaloneIsNotReferredTo`).
- A dry run skips delivery, the run patch and all waits, but applies the CR and starts the forward.
- A failing include helper leaves the ssh include out of step with the stanzas
  (`PrepareKeepsIncludeIff`, `TeardownKeepsIncludeIff`).
- Repeating apply and run keeps the content but is not silent at the server unless the entity asks for
  Always: in between it writes the authored strategy (`ApplyThenRunConverges`).

## Assumptions

- Pids are not recycled: a launch gets a pid no group has had and no pidfile names, and a pidfile names
  either a supervisor or nothing that is alive.
- A signal takes effect at once for a supervisor or a reaped group; a child the loop signals is gone by the
  end of the two-second rest that follows. An exited child no longer answers `kill -0`.
- Pidfile writes and removals succeed and are atomic. Calls on one state directory do not overlap, and a
  start, stop, bring-up or teardown happens between steps of the supervisors, not during them.
- The script's own steps take no time; time passes in its sleeps only.
- In runs of the host protocol, `Stop` is called on a current handle; what a stale one does is proved apart.
- The API server refuses without effect, keeps the version on a write that changes nothing, and stores
  exactly what it is sent (no defaulting or admission changes). Resource versions grow. A delete removes
  the object at once, without finalizers.
- Distinct keys are distinct objects: a connection value stands for the cluster it selects, given as a
  function that may fail.
- `spec.VmDomainIdentity` is a given identity; `filepath.Join` puts one slash between the base directory and
  a VM name. The ssh-config helpers keep a map of stanzas and an include flag, and change nothing on error.
- Only the three venue waits move the clock of a bring-up. The VMI's status over time, Get latencies and
  oversleeps are arbitrary.
- The outcomes of configuration loading, box labels, key generation, port allocation, image delivery, the
  shared cloud-init renderer, `virtctl` lookup and the guest steps are inputs.

## Model

| member | source | states |
|---|---|---|
| `Supervisor.InvIsKept` | candy/plugin-kubevirt/lifecycle.go:535-543 | every interleaved step keeps the order of the loop; a new generation appears only at the spawn, when no child is running |
| `Supervisor.EveryRunKeepsInv` | candy/plugin-kubevirt/lifecycle.go:535-543 | in every run at most one virtctl runs and it is the latest generation; at most listenTimeout probes; monitoring only after this generation was heard in LISTEN |
| `Supervisor.HealthyIsNeverKilled` | candy/plugin-kubevirt/lifecycle.go:537-543 | a child that is alive with its port listening is neither signalled nor replaced, from every place that still has a check of it ahead |
| `Supervisor.OthersAreKilled` | candy/plugin-kubevirt/lifecycle.go:537-543 | the converse: from every other place the same healthy child is signalled within three script steps |
| `Supervisor.PatienceIsBounded` | candy/plugin-kubevirt/lifecycle.go:526-543 | the ranking never exceeds max(listenTimeout, 2) + 2 seconds and 4 listenTimeout + 6 script steps |
| `Supervisor.TroubleCostsPatience` | candy/plugin-kubevirt/lifecycle.go:535-543 | while the child is gone, or the port silent, every unit of time passed is paid for by the ranking |
| `Supervisor.TroubleIsBounded` | candy/plugin-kubevirt/lifecycle.go:535-543 | a stretch of trouble within one generation is bounded in time and in script steps |
| `Supervisor.GenerationsRise` | candy/plugin-kubevirt/lifecycle.go:535-543 | generations never fall, over any run |
| `Supervisor.BrokenForwardIsReplaced` | candy/plugin-kubevirt/lifecycle.go:518-548 | a dead virtctl, or a port that stays silent, gets a fresh virtctl within max(listenTimeout, 2) + 2 seconds, under every interleaving |
| `Supervisor.GoneStaysGone` | candy/plugin-kubevirt/lifecycle.go:535-543 | a child that is gone stays gone for the rest of its generation |
| `Supervisor.DeadChildIsReplaced` | candy/plugin-kubevirt/lifecycle.go:538-543 | a virtctl that is gone is replaced within four seconds, whatever listenTimeout is |
| `Supervisor.KilledChildIsReplaced` | candy/plugin-kubevirt/lifecycle.go:629-632 | ending only the virtctl child, at any reachable moment, brings a new one within those four seconds |
| `ProbeWindow.FreshChildHasItsProbes` | candy/plugin-kubevirt/lifecycle.go:536-539 | a fresh virtctl that lives is not signalled, and goes on being probed second by second, until listenTimeout seconds have passed since its spawn |
| `ProbeWindow.OpenInTimeIsNeverKilled` | candy/plugin-kubevirt/lifecycle.go:536-543 | if its port opens within those seconds and stays open while it lives, it is never signalled and never replaced |
| `ProbeWindow.OpenInTimeIsMonitored` | candy/plugin-kubevirt/lifecycle.go:536-542 | and it is monitored within one second of the opening, or four steps |
| `ProbeWindow.EveryChildIsMonitored` | candy/plugin-kubevirt/lifecycle.go:535-543 | both, for every spawn in every run from the start of the script |
| `ProbeWindow.StartSpawns` | candy/plugin-kubevirt/lifecycle.go:535-536 | the first two steps of the script end in a spawn |
| `ProbeWindow.KillIsRested` | candy/plugin-kubevirt/lifecycle.go:543-543 | after a kill at least two seconds pass before the next spawn |
| `ProbeWindow.MonitoringIsPaced` | candy/plugin-kubevirt/lifecycle.go:541-542 | a listening port is looked at again no sooner than two seconds later |
| `PortForwardArgv.BuildArgv` | candy/plugin-kubevirt/lifecycle.go:490-507 | the argument vector written out, each optional part in its place |
| `PortForwardArgv.ArgvIsUndone` | candy/plugin-kubevirt/lifecycle.go:490-507 | the parser recovers kubeconfig, context, VM, namespace and port of every request for a slash-free VM name |
| `PortForwardArgv.ArgvIsInjective` | candy/plugin-kubevirt/lifecycle.go:490-507 | different requests for slash-free names give different argument vectors |
| `PortForwardArgv.SlashedNamesCollide` | candy/plugin-kubevirt/lifecycle.go:500-503 | why slash-free: a slash in the name collides with a namespace |
| `Decimal.AtoiOfItoa` | candy/plugin-kubevirt/lifecycle.go:506-506 | printing and reading a 64-bit number are inverse |
| `Decimal.EchoedNumberIsRead` | candy/plugin-kubevirt/lifecycle.go:646-648 | what `echo` leaves in a pidfile reads back as the same number |
| `PortForward.ForwardCarriesSSH` | candy/plugin-kubevirt/lifecycle.go:610-627 | true exactly when the peer's bytes begin with "SSH-", however they are split into reads |
| `PortForward.Host.ReadLivePid` | candy/plugin-kubevirt/lifecycle.go:641-654 | a pid exactly when the pidfile text names a live supervisor |
| `PortForward.Host.ReapGroup` | candy/plugin-kubevirt/lifecycle.go:633-639 | the supervisor dead and its child with it, nothing else changed |
| `PortForward.Host.RemovePidFile` | candy/plugin-kubevirt/lifecycle.go:569-569 | that pidfile gone, nothing else changed |
| `PortForward.Host.RunSupervisorCmd` | candy/plugin-kubevirt/lifecycle.go:530-548 | a new group for the request, its pid in the pidfile, in a form that reads back |
| `PortForward.Host.Start` | candy/plugin-kubevirt/lifecycle.go:555-588 | the reuse / reap / launch decision with each of its errors, and the whole host it leaves |
| `PortForward.Host.Stop` | candy/plugin-kubevirt/lifecycle.go:661-672 | the handle's group reaped and its pidfile gone |
| `PortForward.Host.StopByPidfile` | candy/plugin-kubevirt/lifecycle.go:892-898 | the named supervisor signalled alone, its pidfile gone |
| `PortForward.StepKeepsHostInv` | candy/plugin-kubevirt/lifecycle.go:555-672 | every start, current stop, pidfile stop, loop step and death keeps live supervisors named by their pidfile |
| `PortForward.EveryHostRunKeepsInv` | candy/plugin-kubevirt/lifecycle.go:555-672 | over every sequence of calls and steps: at most one live supervisor a directory, the one its pidfile names, with at most one virtctl |
| `PortForward.StopIsSafeIffCurrent` | candy/plugin-kubevirt/lifecycle.go:661-672 | a stop keeps that order exactly when its handle names whatever is live in the directory |
| `PortForward.StaleStopLeaksASupervisor` | candy/plugin-kubevirt/lifecycle.go:661-672 | otherwise the next start makes a second live supervisor in the directory |
| `PortForward.HandleIsLive` | candy/plugin-kubevirt/lifecycle.go:555-588 | a returned handle names the live supervisor its pidfile names, in the asked directory |
| `PortForward.RequestIsServedIff` | candy/plugin-kubevirt/lifecycle.go:555-588 | it was launched for exactly this request unless a live supervisor launched for another stood there and the asked port spoke ssh, and exactly then not |
| `PortForward.LiveForwardIsReusedIff` | candy/plugin-kubevirt/lifecycle.go:563-567 | a live supervisor is handed out, the host unchanged, exactly when there is one and the asked port speaks ssh |
| `PortForward.ReuseMayServeAnotherRequest` | candy/plugin-kubevirt/lifecycle.go:563-567 | the input where reuse goes wrong: from an empty host, two starts for different requests, the second answered by some ssh server, share the first forward |
| `PortForward.SilentForwardIsReaped` | candy/plugin-kubevirt/lifecycle.go:563-570 | a live forward that is silent is reaped, child included, and not handed out |
| `PortForward.StartSucceedsIff` | candy/plugin-kubevirt/lifecycle.go:555-588 | a start succeeds exactly when there is a state directory and either a live forward that speaks ssh or a virtctl whose launch comes up without error; a silent forward is in nobody's way |
| `PortForward.FreshForwardIsHandedOut` | candy/plugin-kubevirt/lifecycle.go:570-587 | without reuse it hands out the launched pid: in the pidfile, alive, for the asked request, at the start of its script |
| `PortForward.StartFailsWith` | candy/plugin-kubevirt/lifecycle.go:556-587 | which error a start reports, and what each leaves on the host |
| `PortForward.ExtinctForGood` | candy/plugin-kubevirt/lifecycle.go:629-639 | after a reap no process of the group is alive and its generation never rises again, in every continuation |
| `PortForward.PidfileStopSparesTheChild` | candy/plugin-kubevirt/lifecycle.go:892-898 | for the named group alone: the pidfile stop empties it exactly when no child was running; the group stop always does |
| `PortForward.PidfileStopEmptiesDirIff` | candy/plugin-kubevirt/lifecycle.go:892-898 | the pidfile stop leaves no process of the directory exactly when no supervisor of it, dead or alive, had a child running |
| `PortForward.StopEmptiesDirIff` | candy/plugin-kubevirt/lifecycle.go:661-672 | a current stop does so exactly when no other supervisor of the directory had |
| `PortForward.EarlierChildSurvives` | candy/plugin-kubevirt/lifecycle.go:892-898 | the input where both fall short though the named supervisor has no child: start, spawn, pidfile stop, start again |
| `PortForward.OrphanOutlivesEveryCall` | candy/plugin-kubevirt/lifecycle.go:892-898 | a child spared that way outlives every later start, pidfile stop and step of the host until it exits itself or its dead leader's handle is stopped |
| `JsonValues.NestedMapString` | candy/plugin-kubevirt/render.go:516-527 | the string at the path, and "" for every missing or other value |
| `JsonValues.MergePatchIsIdempotent` | candy/plugin-kubevirt/cluster_ops.go:87-97 | applying any merge patch twice is applying it once (section 2 of RFC 7396) |
| `RunStrategy.LiveObject.SetRunStrategy` | candy/plugin-kubevirt/methods.go:565-573 | the object with spec.runStrategy assigned, a missing or non-object spec replaced |
| `RunStrategy.PatchIsAssignment` | candy/plugin-kubevirt/cluster_ops.go:93-97 | the merge patch and the assignment are the same change, for every object |
| `RunStrategy.LastStrategyWins` | candy/plugin-kubevirt/methods.go:565-573 | a second assignment hides the first, and is read back |
| `RunStrategy.AssignmentIsSilentIff` | candy/plugin-kubevirt/methods.go:565-573 | nothing changes exactly when the strategy is already the stored one |
| `RunStrategy.AssignmentFrame` | candy/plugin-kubevirt/methods.go:565-573 | every path apart from spec.runStrategy looks up as before, for every object |
| `RunStrategy.TextFrame` | candy/plugin-kubevirt/render.go:516-527 | every string path not inside spec.runStrategy reads as before exactly when spec was not a non-empty string |
| `RunStrategy.PatchesInterleave` | candy/plugin-kubevirt/cluster_ops.go:70-97 | in every order of patches and other writers' changes the last patch decides the strategy and every other path is what the others alone would leave |
| `RunStrategy.ForeignMergePatchSparesIff` | candy/plugin-kubevirt/cluster_ops.go:80-92 | the writers this holds for: among object merge patches exactly those that name no spec.runStrategy |
| `ApiServer.SameVersionIsUntouched` | candy/plugin-kubevirt/cluster_ops.go:209-215 | an update is accepted exactly when no other writer changed the object since the read |
| `ApiServer.NothingFellBetween` | candy/plugin-kubevirt/cluster_ops.go:209-215 | and then it was unchanged at every moment between |
| `ApiServer.RewrittenElsewhere` | candy/plugin-kubevirt/cluster_ops.go:201-216 | other writers do to all other keys what they would have done without us |
| `ApiServer.TouchesJoin` | candy/plugin-kubevirt/cluster_ops.go:201-216 | two stretches of requests in a row leave alone everything outside the keys of either |
| `ClusterOps.ApplyObject` | candy/plugin-kubevirt/cluster_ops.go:201-216 | against every schedule of other writers: the object stored at the version it read, or created, exactly when nothing moved in between; otherwise the store as the others left it |
| `ClusterOps.EnsureDataVolume` | candy/plugin-kubevirt/cluster_ops.go:57-68 | created exactly when absent at both requests; an existing DataVolume is never written |
| `ClusterOps.UpdateRunStrategy` | candy/plugin-kubevirt/cluster_ops.go:87-92 | succeeds on every existing VM whatever version it has, and sets only the strategy |
| `ClusterOps.PatchRunsInterleave` | candy/plugin-kubevirt/cluster_ops.go:70-97 | over every run of strategy patches at the server with other writers' saves between them: none is turned away for its version, the last decides the strategy, and every other path is what the others alone leave |
| `ClusterOps.DeleteVirtualMachine` | candy/plugin-kubevirt/cluster_ops.go:173-179 | the key gone; an absent object is no error |
| `ClusterOps.HaltThenRun` | candy/plugin-kubevirt/methods.go:542-557 | the restart: success means no foreign write to the object before either write; a failed second write leaves the halting one |
| `ClusterOps.RunVMState` | candy/plugin-kubevirt/methods.go:515-562 | start, stop, restart and the unknown action, each with its errors and the exact store it leaves; a success leaves Halted for stop and Always for start and restart, every other path as read |
| `ClusterOps.VerbsWrite` | candy/plugin-kubevirt/methods.go:526-557 | the first write of stop and restart asks for Halted, that of start for Always; every other path as read |
| `ClusterOps.PatchWrites` | candy/plugin-kubevirt/cluster_ops.go:70-92 | a patch that goes through leaves exactly the strategy it names and every other path as met |
| `ClusterOps.RestartIsUndisturbed` | candy/plugin-kubevirt/methods.go:542-557 | a successful restart: the object stood as read until halted and halted until run, at every moment between, and only then did its version move on |
| `ClusterOps.ApplyThenRunConverges` | candy/plugin-kubevirt/lifecycle.go:278-284 | apply then run leaves the applied object with Always whatever was there, and repeating leaves the same content; silently exactly when it was authored Always |
| `Polling.ConditionTrue` | candy/plugin-kubevirt/methods.go:170-211 | whether some entry of status.conditions has that type and status "True" |
| `Polling.VmiInterfaceIP` | candy/plugin-kubevirt/methods.go:218-237 | the first non-empty interface address |
| `Polling.FirstAddressIsFirst` | candy/plugin-kubevirt/methods.go:218-237 | it is the first, and there is one exactly when some interface has one |
| `Polling.PollUntil` | candy/plugin-kubevirt/cluster_ops.go:100-157 | the complete account of a run: no Get before the last settled anything or came back late, and the last decides the outcome; timeouts only after the deadline, other errors at once |
| `Polling.SettledIsUnique` | candy/plugin-kubevirt/cluster_ops.go:100-157 | cluster and clock determine the run |
| `Polling.GetsAreBounded` | candy/plugin-kubevirt/cluster_ops.go:100-157 | at most floor(T/2) + 2 Gets |
| `Polling.GetBoundIsReached` | candy/plugin-kubevirt/cluster_ops.go:100-157 | an absent object and instantaneous Gets take exactly that many, and end at that time |
| `Polling.LoopsEndInTime` | candy/plugin-kubevirt/methods.go:239-269 | whatever happens, the end comes at most one sleep and one Get after the deadline |
| `Polling.LoopsRespond` | candy/plugin-kubevirt/methods.go:381-412 | a condition that becomes true in time and stays true is reported within one sleep and two Gets |
| `Polling.ReadingsAnswer` | candy/plugin-kubevirt/methods.go:170-235 | what each of the nine loops waits for, path by path, what it then says, and that phase Failed ends the three phase loops only |
| `Polling.LoopsEndAsObserved` | candy/plugin-kubevirt/methods.go:239-506 | each of the nine ends as observed: success only on a satisfying object and in its words, terminal failure only on phase Failed, other errors at once, a timeout only after the deadline with nothing satisfying ever seen |
| `Polling.JsonStopsAtFirstObject` | candy/plugin-kubevirt/methods.go:422-506 | asked for JSON, the DataVolume and snapshot loops return the first object they see, unless its phase is terminal |
| `Polling.WaitPlatformCR` | candy/plugin-kubevirt/methods.go:319-355 | the platform arm is the same loop, with one more Get after a timeout to name the last phase |
| `Render.RenderCPU` | candy/plugin-kubevirt/render.go:250-274 | the CPU block; non-positive counts, empty model and unset pinning absent |
| `Render.RenderFirmware` | candy/plugin-kubevirt/render.go:276-289 | EFI with its secure-boot choice, or BIOS for any other bootloader |
| `Render.RenderMigration` | candy/plugin-kubevirt/render.go:291-303 | the migration block with unset fields absent |
| `Render.RenderHardware` | candy/plugin-kubevirt/render.go:151-174 | machine, firmware, SMM, CPU and memory of the normal form |
| `Render.RenderDeviceBlock` | candy/plugin-kubevirt/render.go:176-223 | the declared devices, in order, absent when empty |
| `Render.RenderDomain` | candy/plugin-kubevirt/render.go:151-248 | the domain, with the authored GPUs or else the mapped exclusive tokens |
| `Render.RenderStorage` | candy/plugin-kubevirt/render.go:308-338 | the boot volume of the source kind, the pod network, the boot disk |
| `Render.RenderInterfaces` | candy/plugin-kubevirt/render.go:342-363 | the one interface: bridge, pod, or masquerade for everything else |
| `Render.RenderCloudInitVolume` | candy/plugin-kubevirt/render.go:366-386 | the cloud-init volume, or the first guard that fails |
| `Render.RenderDataVolumeTemplates` | candy/plugin-kubevirt/render.go:408-439 | a template exactly for data_volume and clone |
| `Render.RenderDataVolume` | candy/plugin-kubevirt/render.go:444-481 | the standalone CR of the same form |
| `Render.AppendSlice` | candy/plugin-kubevirt/render.go:493-498 | one more element, or a new list over anything that is not one |
| `Render.RenderVirtualMachine` | candy/plugin-kubevirt/render.go:47-147 | the CR is the encoding of the normal form, or the cloud-init failure |
| `NormalForm.DecodeUndoesEncode` | candy/plugin-kubevirt/render.go:47-147 | every normal form is read back from its CR by the decoder |
| `NormalForm.EncodeIsInjective` | candy/plugin-kubevirt/render.go:47-147 | two CRs are equal exactly when their normal forms are |
| `Render.RenderingIsFaithful` | candy/plugin-kubevirt/render.go:47-147 | for any two entities with their options: the CR decodes to the normal form, and the CRs agree exactly when the forms do |
| `Render.NoDanglingReferences` | candy/plugin-kubevirt/render.go:58-83 | what the renderer adds resolves: distinct volume names; authored disks in order before a boot disk that names a volume; an interface that names the network |
| `Render.DisksNameVolumesIff` | candy/plugin-kubevirt/render.go:203-209 | every disk of a CR names a volume exactly when the source kind is known and each authored disk is called boot, or cloudinitdisk where there is cloud-init |
| `Render.DiskNamesAreDistinctIff` | candy/plugin-kubevirt/render.go:58-83 | disk names are distinct exactly when the authored ones are and none is boot |
| `Render.AuthoredDiskDangles` | candy/plugin-kubevirt/render.go:203-209 | an instance: an authored disk called data names no volume |
| `Render.DataVolumesAreTemplated` | candy/plugin-kubevirt/render.go:408-481 | a volume refers to a DataVolume exactly when a template has that name, which is boot; the standalone CR exists exactly then, with an equal spec |
| `Render.StandaloneIsNotReferredTo` | candy/plugin-kubevirt/render.go:444-481 | the standalone DataVolume is named after the VM, a name no volume of any CR refers to |
| `Render.SecureBootHasSmm` | candy/plugin-kubevirt/render.go:158-168 | SMM exactly with EFI secure boot |
| `Render.MatcherAndCpuAre` | candy/plugin-kubevirt/render.go:225-273 | when a CR names an instancetype, and when it sizes the CPU |
| `RenderedFields.CpuFields` | candy/plugin-kubevirt/render.go:250-274 | cores, sockets, threads, model and pinning, each under its own key and absent when unset or not positive |
| `RenderedFields.HardwareFields` | candy/plugin-kubevirt/render.go:155-174 | machine, memory, secure boot as authored for efi, bios otherwise, SMM with secure boot only |
| `RenderedFields.SwitchFields` | candy/plugin-kubevirt/render.go:176-190 | the device switches, true or absent |
| `RenderedFields.WatchdogFields` | candy/plugin-kubevirt/render.go:194-202 | the watchdog's name, model and action |
| `RenderedFields.ListFields` | candy/plugin-kubevirt/render.go:186-223 | each input and host device, in order, under its own keys |
| `RenderedFields.GpuFields` | candy/plugin-kubevirt/render.go:225-242 | the authored GPUs in order; without any, one entry for each non-empty exclusive token, as a resource if it has a slash and as a device if not |
| `RenderedFields.DiskFields` | candy/plugin-kubevirt/render.go:73-75 | the authored disks and after them the boot disk on virtio; the pod network |
| `RenderedFields.InterfaceFields` | candy/plugin-kubevirt/render.go:342-363 | bridge as authored, no binding for pod, masquerade for everything else; the model, or virtio |
| `RenderedFields.MigrationFields` | candy/plugin-kubevirt/render.go:291-303 | the migration settings, true or absent |
| `RenderedFields.PlacementFields` | candy/plugin-kubevirt/render.go:91-96 | each node-selector label with its value, and the affinity as authored |
| `RenderedFields.MatcherFields` | candy/plugin-kubevirt/render.go:98-109 | instancetype and preference with their kinds |
| `RenderedFields.VolumeFields` | candy/plugin-kubevirt/render.go:308-330 | the boot volume of the source kind with each of its fields, then the cloud-init volume with its files |
| `RenderedFields.TemplateFields` | candy/plugin-kubevirt/render.go:408-439 | the one template of data_volume and clone: name, source and storage fields |
| `RenderedFields.StandaloneFields` | candy/plugin-kubevirt/render.go:444-481 | the standalone DataVolume: name, namespace, source and storage fields |
| `RenderedFields.SpecFields` | candy/plugin-kubevirt/render.go:119-136 | run strategy or Always, eviction strategy, grace period when positive |
| `RenderedFields.HeadFields` | candy/plugin-kubevirt/render.go:138-146 | API version, kind, name, namespace or default, and the domain label |
| `RenderedFields.OnlyTheseFields` | candy/plugin-kubevirt/render.go:47-147 | the spec, guest spec, domain, CPU and devices have no fields but these |
| `RenderedFields.RenderingFailsWith` | candy/plugin-kubevirt/render.go:366-376 | there is no CR exactly for cloud-init without a distro, without a user, or whose renderer fails, reported in that order |
| `Gpus.IsDevicePluginResource` | candy/plugin-kubevirt/gpu.go:37-44 | whether the token has a slash |
| `Gpus.GPUsFromRequiresExclusive` | candy/plugin-kubevirt/gpu.go:20-33 | the mapped tokens in order |
| `Gpus.MappedTokensAreRecovered` | candy/plugin-kubevirt/gpu.go:20-44 | the non-empty tokens are recovered from their entries, each of which has exactly one form |
| `Gpus.RenderVirtualMachineGPUs` | candy/plugin-kubevirt/gpu.go:48-59 | the printed lines |
| `Gpus.OneEntryPrints` | candy/plugin-kubevirt/gpu.go:48-59 | of an entry with both forms the resource is printed; one with neither prints nothing |
| `Gpus.ValidGpusPrintOneLineEach` | candy/plugin-kubevirt/gpu.go:48-59 | valid entries print one line each, in order |
| `Validate.ValidateKubeVirtDeep` | candy/plugin-kubevirt/kind.go:105-191 | the diagnostics in order, empty exactly when every rule holds |
| `Validate.DiagnosticsAreExactly` | candy/plugin-kubevirt/kind.go:105-191 | rule by rule: a diagnostic with its path is reported exactly when that rule is broken there |
| `Validate.GpuPathNamesTheIndex` | candy/plugin-kubevirt/kind.go:171-181 | the path of a GPU diagnostic is its index in decimal between gpus[ and ] |
| `Validate.GpuDiagnosticsAreExact` | candy/plugin-kubevirt/kind.go:171-181 | one diagnostic for each offending GPU index, ascending, and no other |
| `Validate.GpuPathsAreDistinct` | candy/plugin-kubevirt/kind.go:171-181 | different indices are reported under different paths |
| `Validate.ResolveGuestIdentity` | candy/plugin-kubevirt/lifecycle.go:398-425 | the declared identity, completed from a containerDisk's box; otherwise what is missing |
| `Validate.ValidIdentityResolves` | candy/plugin-kubevirt/lifecycle.go:398-425 | a valid entity that is no containerDisk always resolves what it declares and passes both cloud-init guards |
| `Validate.ValidGpusHaveOneForm` | candy/plugin-kubevirt/render.go:225-247 | each GPU of a valid entity renders exactly one key and prints exactly one line |
| `Validate.InstancetypeExcludesCpu` | candy/plugin-kubevirt/kind.go:183-189 | no valid entity's CR has both an instancetype and CPU counts; for non-negative counts the rule rejects exactly those that would |
| `Venue.NamesAreDistinct` | candy/plugin-kubevirt/lifecycle.go:102-107 | different identities have different VM names and state directories, and the same ones the same |
| `Venue.NextStage` | candy/plugin-kubevirt/lifecycle.go:186-368 | the i-th step happens only after all before it, and a failing one ends the bring-up there |
| `Venue.Site.Resolve` | candy/plugin-kubevirt/lifecycle.go:186-251 | the preflight: the first thing missing, in order, or the key, port, namespace and identity all later steps use |
| `Venue.Site.DeliverAndApply` | candy/plugin-kubevirt/lifecycle.go:253-283 | image delivery only where it applies, then the rendered CR applied |
| `Venue.Site.Wait` | candy/plugin-kubevirt/lifecycle.go:180-184 | each venue wait is the polling loop with its own condition and bound, started when the one before ended |
| `Venue.Site.RunAndWait` | candy/plugin-kubevirt/lifecycle.go:284-303 | the run patch and the three waits, up to the first that fails |
| `Venue.Site.Publish` | candy/plugin-kubevirt/lifecycle.go:305-323 | forward, stanza, include, up to the first that fails; the stanza has the forward's port |
| `Venue.Site.AwaitGuest` | candy/plugin-kubevirt/lifecycle.go:325-347 | the four guest steps, up to the first that fails |
| `Venue.Site.PrepareVenue` | candy/plugin-kubevirt/lifecycle.go:186-368 | the bring-up is the fixed list of steps run until one fails; the error names that step; the world is the one it left |
| `Venue.Site.PostTeardown` | candy/plugin-kubevirt/lifecycle.go:863-888 | delete by recomputed key with its error dropped, pidfile stop, stanza removal, include removal only with the last stanza |
| `Venue.Site.SetState` | candy/plugin-kubevirt/lifecycle.go:675-699 | the strategy patch on the ambient cluster's default namespace |
| `VenueRuns.ForwardFollowsTheWaits` | candy/plugin-kubevirt/lifecycle.go:278-309 | outside dry runs, a bring-up that reaches the forward has applied, asked to run, and seen Ready, then AgentConnected, then an address; a dry run goes from apply to forward |
| `VenueRuns.Completed` | candy/plugin-kubevirt/lifecycle.go:186-368 | a completed step was done in the world the steps before it left |
| `VenueRuns.WaitsTakeAtMost` | candy/plugin-kubevirt/lifecycle.go:180-184 | however a bring-up ends, its waits take at most 2700 + 6 seconds with instantaneous Gets, and so much more for slow ones; a dry run does not wait |
| `VenueRuns.ValidEntitiesRender` | candy/plugin-kubevirt/lifecycle.go:215-222 | a valid entity that is no containerDisk never stops the bring-up for want of an identity, nor at rendering unless the cloud-init renderer fails |
| `VenueRuns.QuietBringUpConverges` | candy/plugin-kubevirt/lifecycle.go:278-284 | with no other writer: an untouched store, or the rendered CR stored, with strategy Always unless this is a dry run |
| `VenueRuns.BringUpPublishes` | candy/plugin-kubevirt/lifecycle.go:305-323 | what any bring-up leaves on the host and in the ssh config, by how far it got |
| `VenueRuns.StanzaHasAForward` | candy/plugin-kubevirt/lifecycle.go:305-319 | a published stanza names the VM and the asked port of a live forward, which was launched for exactly this request unless an older one for another was reused |
| `VenueRuns.PrepareKeepsIncludeIff` | candy/plugin-kubevirt/lifecycle.go:316-323 | the include fits the stanzas after a bring-up unless its boot steps and its forward succeed, the first stanza is written and ensuring the include then fails, and exactly then not |
| `VenueRuns.TeardownKeepsIncludeIff` | candy/plugin-kubevirt/lifecycle.go:879-885 | likewise after a teardown, unless the last stanza went and removing the include failed |
| `VenueRuns.TeardownClears` | candy/plugin-kubevirt/lifecycle.go:863-898 | after teardown no live supervisor and no pidfile; no process at all of the deploy's forwards exactly when none of them had a virtctl running; the VM gone exactly when the delete was taken and the recomputed key is its key; every other key left alone |
| `VenueRuns.DataVolumesCollideIff` | candy/plugin-kubevirt/render.go:408-439 | two deploys name the same DataVolume exactly when both boot from one in the same namespace of the same cluster |
| `VenueRuns.RecomputedIffDefault` | candy/plugin-kubevirt/lifecycle.go:675-690 | without a prior state the recomputed key is the applied one exactly for the default namespace of the ambient cluster |
| `VenueRuns.UnreachedVmSurvives` | candy/plugin-kubevirt/lifecycle.go:863-876 | otherwise neither a state switch nor a teardown changes the VM |
| `VenueRuns.NamespacedVmOutlivesTeardown` | candy/plugin-kubevirt/lifecycle.go:863-876 | an instance: a VM in namespace prod outlives its teardown |
| `VenueRuns.TeardownUndoesPrepare` | candy/plugin-kubevirt/lifecycle.go:863-898 | teardown undoes a bring-up however far it got and whatever its supervisor did meanwhile: cluster, pidfiles and ssh config as before |
| `VenueOutcomes.PreflightFailsWith` | candy/plugin-kubevirt/lifecycle.go:186-251 | when the preflight goes through, and otherwise the first thing missing, in order |
| `VenueOutcomes.PreflightSettles` | candy/plugin-kubevirt/lifecycle.go:186-251 | the key, directory, request, stanza and render options all later steps use, from name, entity, target, prior port and identity |
| `VenueOutcomes.PlanIs` | candy/plugin-kubevirt/lifecycle.go:253-347 | the fixed list of steps, with delivery where it applies and without run, waits and guest steps in a dry run |
| `VenueOutcomes.AppliedMeansDelivered` | candy/plugin-kubevirt/lifecycle.go:257-261 | a CR whose image has to be on a reachable node is applied only after the image was delivered |
| `VenueOutcomes.UndeliveredFails` | candy/plugin-kubevirt/lifecycle.go:257-261 | without that the call fails there, with nothing touched |
| `VenueOutcomes.DeliveryIsNotAskedFor` | candy/plugin-kubevirt/container_disk_node.go:63-72 | in every other case the outcome does not depend on whether a delivery would work |
| `VenueOutcomes.WaitGivesUpAfter` | candy/plugin-kubevirt/lifecycle.go:180-184 | a wait that gives up has waited its 15, 20 or 10 minutes, and at most a sleep and a Get longer |
| `VenueOutcomes.QuietBringUpSucceedsIff` | candy/plugin-kubevirt/lifecycle.go:186-368 | with no other writer, the exact condition for a bring-up to succeed: delivery, rendering, the three waits one after the other, forward, stanza, include, and the four guest steps |
| `VenueOutcomes.QuietBringUpRunsTheVm` | candy/plugin-kubevirt/lifecycle.go:278-284 | and the VM it leaves asks for Always and is the rendered CR otherwise |
| `VenueOutcomes.RecomputedFromPrior` | candy/plugin-kubevirt/lifecycle.go:864-872 | with a prior state teardown uses its context without a kubeconfig, and its namespace or default |
| `VenueOutcomes.SwitchWrites` | candy/plugin-kubevirt/lifecycle.go:675-699 | a start or stop succeeds exactly when the ambient cluster has the VM in default and takes the patch; it leaves Always or Halted and every other path as met |
| `VenueIsolation.StartSpares` | candy/plugin-kubevirt/lifecycle.go:555-588 | a start leaves every other directory's supervisors and pidfile alone |
| `VenueIsolation.PidfileStopSpares` | candy/plugin-kubevirt/lifecycle.go:892-898 | so does a pidfile stop |
| `VenueIsolation.BringupTouches` | candy/plugin-kubevirt/lifecycle.go:253-303 | whatever a bring-up gets to, every key but its own is as the other writers alone left it |
| `VenueIsolation.EveryVenueRunKeepsHostInv` | candy/plugin-kubevirt/lifecycle.go:186-368 | at most one live supervisor a directory, named by its pidfile, over every run of prepare, switch and teardown calls with supervisors stepping in between |
| `VenueIsolation.RunsTouchOnlyTheirVms` | candy/plugin-kubevirt/lifecycle.go:186-368 | over every such run all objects outside the calls' own VM keys are as the other writers alone left them |
| `VenueIsolation.CallsAreIsolated` | candy/plugin-kubevirt/lifecycle.go:863-898 | a deploy keeps its supervisors, pidfile, stanza and VM through every run of calls on other deploys |
| `VenueIsolation.IncludeFitsThroughout` | candy/plugin-kubevirt/lifecycle.go:879-885 | over every run whose include helpers work, the include is there exactly while some stanza is |

## Left out

- Real sockets, shells, `ss`, signals and files; POSIX quoting of the supervisor script (`ShellQuote` is not part of this model).
- Cancellation through a context, beyond a launch that reports an error.
- The texts of errors and notes; errors carry their kind only.
- The merge patch as bytes on the wire: it is modelled as the JSON value those bytes denote.
- JSON number widths and formatting: numbers are integers.
- Aliasing between nested Go maps: renderers and `setRunStrategy` work on values, so a map shared by two parents is not expressed. A fresh map is built on every path that is rendered.
- `kvRebuild`, `kvPostApply`, `kvAttach`, `kvStatus`, listing and printable status: plumbing or one-branch reads.
- client-go configuration, kubeconfig loading, the gRPC dispatch and the CLI.
- The create steps of the snapshot and migration verbs and the fire-and-report `runMigration`; their polling loops are in `Polling`.
- `waitSecondsFor` and the timeout defaults: loop bounds are parameters.
- `containerDiskNodeAlias`: the node alias is an input, its gate is in `Venue.Delivers`.
- The shared cloud-init renderer itself, including the ssh key it places.
- The reply of a teardown (entries the host removes) and the venue descriptor beyond its alias.
- DataVolumes as objects a controller makes and removes: isolation between deploys is about VirtualMachines; where two CRs name the same DataVolume is stated apart.
- Strangers' live processes whose pid happens to stand in a pidfile.
