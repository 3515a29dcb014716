# tos-ai: verified models of its crash-safe state machines

This project models the parts of tos-ai whose promise is about whole runs: the commerce
execution Gate that may start a piece of paid work at most once, the two-slot software update
manager, the exactly-once software work runner, the result outbox and its publisher, the
container backends and GPU leases that share a host, and the code that decides how much of
that host may be used.

Each protocol is a total step function over an explicit state. Everything the program does not
control is in the event: which durable write fails, whether a failing write took effect anyway,
where the process dies, what an authority, a clock, the network or an executor answers, and in
which order concurrent calls interleave at their lock boundaries. A run is any sequence of
events. The main theorems speak about every run, without a bound and without assuming that
calls are well formed. Beside the step functions stands the imperative code (classes with the
source's fields, loops, in-place array work), whose methods are proved equal to the steps. In the
Gate, the update manager, the GPU leases and the resource monitor every step has its method; in
the work runner and the outbox every step but opening and ending the process; in the container
backend admission, unregistering, finishing a run, beginning a probe and beginning to close; in the
supervised backend admission, unregistering, giving a slot back and beginning to close. The other
steps of the two backends exist only in the step functions.

Digest and signature functions are function-valued fields of an environment, so the theorems
hold for every choice of them. Where a result needs that digests or identifiers do not collide,
the hypothesis names only values that occur in that run; for the replay, journal and outbox
theorems a concrete run shows that it can be met.

## Results that are negative

Each comes with the exact condition and with a run in which the promise fails.

- A Gate record torn by a crash while it is created is never repaired: `Open` succeeds exactly
  when every record in the directory reads, so one such file refuses every later `Open`.
- An outbound call answered with status zero is reported as a success, but the record it leaves
  does not read: its exact repetition is refused and so is every later `Open`. Exactly the calls
  with a nonzero status, a well-formed digest and a record within the size bound can be repeated.
- An outbox record whose encoding is exactly as long as the limit is accepted and then cannot be
  read, because the reader also counts the newline. Completing a record makes its encoding one
  byte longer, so the same happens one byte earlier. One unreadable file stops all publishing.
- `Stage` accepts manifests that do not read back from their own file, and the next `Open` then
  refuses: those whose JSON text exceeds 16384 bytes or whose texts are not UTF-8. Line breaks
  after the signature, which the decoder skips, make such a manifest out of any accepted one.
- When storing the update state reports failure after the rename took effect and the process goes
  on, a second `Stage` can leave a state that `Open` rejects, and a rollback can lower the durable
  security revision.
- Choosing a control-group mount depends on the order of the mount table. The order is irrelevant
  exactly when no two candidates clash or two of the greatest root length do. Which place is
  chosen never depends on it.
- The tmpfs rewriting counts mounts without telling them apart; on a list it accepts, every
  expected place is bounded exactly when no two mounts share a place.

## Model

| member | source | states |
|---|---|---|
| `Sorting.SortSlice` | pkg/commercegate/gate.go:676-713 | sorting a slice in place leaves it sorted by the key and a permutation of what it was |
| `Sorting.SortedUnique` | pkg/commercegate/gate.go:676-713 | with distinct keys there is only one sorted arrangement, so the sort algorithm does not matter |
| `PlanPreparation.CheckFiles` | pkg/commercegate/gate.go:677-682 | comparing neighbours of the sorted list accepts exactly well-formed bindings with pairwise distinct keys |
| `PlanPreparation.CheckEffects` | pkg/commercegate/gate.go:714-724 | the map and set lookups accept exactly the effects whose network binding and credential exist and fit |
| `PlanPreparation.LookupDecides` | pkg/commercegate/gate.go:705-724 | looking a binding up in the index is the same as finding it in the list |
| `PlanPreparation.PreparePlan` | pkg/commercegate/gate.go:665-747 | the imperative preparation computes the reference preparation, on every plan, accepted or refused |
| `ExecutionPlan.PreparationIsCanonical` | pkg/commercegate/gate.go:665-747 | plans that differ only in binding order and in the fields preparation fills prepare to the same result, errors included |
| `ExecutionPlan.TakeoverKeepsIdentity` | pkg/commercegate/gate.go:665-747 | another writer generation preparing the same work gets the same plan but for the generation, hence the same identity |
| `ExecutionPlan.PreparationIsIdempotent` | pkg/commercegate/gate.go:665-747 | preparing a prepared plan changes nothing |
| `ExecutionPlan.IdentityIsWork` | pkg/commercegate/gate.go:725-747 | unless the digests of these two plans collide they share an execution identity if and only if they are the same work |
| `GateSteps.StepKeeps` | pkg/commercegate/gate.go:210-582 | every atomic section, with every write outcome, keeps the Gate invariant and only grows records |
| `GateInvariant.RecoverKeeps` | pkg/commercegate/gate.go:906-934 | recovery only grows records, also when a write fails half way, and when it succeeds nothing listed stays starting or running |
| `GateTheorems.RecordsOnlyGrow` | pkg/commercegate/gate.go:388-438 | between any two moments of a run a record keeps plan and ticket, raises its revision when it changes, never returns to prepared, and keeps absorbing states and terminal effects |
| `GateTheorems.LaunchConsumes` | pkg/commercegate/gate.go:300-353 | a successful start found its record prepared and durably left it starting |
| `GateTheorems.AtMostOneStart` | pkg/commercegate/gate.go:300-353 | over every run two successful starts have different records, identities and semantic slots |
| `GateTheorems.TicketNames` | pkg/commercegate/gate.go:242-298 | a ticket names the record of the identity its plan prepares to |
| `GateTheorems.FreshTicketStartsExactly` | pkg/commercegate/gate.go:300-353 | right after a ticket was issued, in any reachable state, a start with it succeeds exactly when the authority admits it for the recorded plan and writer, in time, with intact inputs |
| `GateTheorems.SameWorkStartsOnce` | pkg/commercegate/gate.go:242-353 | tickets for the same work, from any preparations, order of bindings and writer generations, start at most once together |
| `GateTheorems.AtMostOneNetworkCall` | pkg/commercegate/gate.go:466-582 | over every run the network call for one effect of one execution is made at most once, and only with a durable submission |
| `GateTheorems.RevisionIsDetermined` | pkg/commercegate/gate.go:421-438 | the revision is the base of the state plus the effects' revisions and never exceeds 516 |
| `GateRecovery.OpenSucceedsExactly` | pkg/commercegate/gate.go:210-231 | after any run Open succeeds if and only if every record file reads; then nothing is left starting or running |
| `GateRecovery.UnreadableBlocksForever` | pkg/commercegate/gate.go:861-934 | a record that cannot be read is never changed again and refuses every later Open |
| `GateRecovery.TornCreationIsUnreadable` | pkg/commercegate/gate.go:811-830 | a creation interrupted half way leaves exactly such a record |
| `GateReplay.ResponsePathsDiffer` | pkg/commercegate/gate.go:635-637 | two stable identities in digest form never share a response file |
| `GateReplay.DistinctIdentitiesSeparate` | pkg/commercegate/gate.go:635-637 | recorded effects with distinct stable identities have separate response files |
| `GateReplay.TerminalEffectsHaveResponses` | pkg/commercegate/gate.go:565-582 | in every reachable state whose recorded effects have separate response files, a terminal effect has a stored response with the recorded digest |
| `GateReplay.RepliesAgree` | pkg/commercegate/gate.go:466-582 | in such a run all responses ever returned for one effect, first or replayed, are identical |
| `GateReplay.ReplaysAreAnswered` | pkg/commercegate/gate.go:514-527 | a repetition that was let in is answered, whatever happened before it reads the file, with the recorded status and digest and a body of that digest |
| `GateReplay.AnsweredAgainExactly` | pkg/commercegate/gate.go:514-582 | after an answered call its exact repetition gets the same response if and only if the status is nonzero, the digest has digest form and the record fits; otherwise it is refused and the record does not read |
| `GateExamples.RepetitionIsAnswered` | pkg/commercegate/gate.go:466-582 | a concrete run in which the effect ends with separate response files and its repetition is answered like the first call |
| `GateExamples.StatusZeroIsFinal` | pkg/commercegate/gate.go:886-888 | a concrete run in which a peer answers with status zero: the call succeeds, the repetition is refused and no later Open succeeds, whatever follows |
| `GateExamples.TornCreationIsFinal` | pkg/commercegate/gate.go:811-830 | a concrete run in which creating the first record is interrupted: no later Open succeeds, whatever follows |
| `ExecutionGate.ExecutionGate.Open` | pkg/commercegate/gate.go:210-231 | the loop over the directory has the effect and reply of the open step |
| `ExecutionGate.ExecutionGate.Prepare` | pkg/commercegate/gate.go:242-298 | has the effect and reply of the prepare step |
| `ExecutionGate.ExecutionGate.Start` | pkg/commercegate/gate.go:300-353 | has the effect and reply of the start step |
| `ExecutionGate.ExecutionGate.Transition` | pkg/commercegate/gate.go:421-438 | has the effect and reply of the transition step |
| `ExecutionGate.ExecutionGate.MarkRunning` | pkg/commercegate/gate.go:388-390 | has the effect and reply of the transition from starting to running |
| `ExecutionGate.ExecutionGate.Complete` | pkg/commercegate/gate.go:392-400 | has the effect and reply of the completion step; only terminal states are accepted |
| `ExecutionGate.ExecutionGate.Submit` | pkg/commercegate/gate.go:466-535 | has the effect and reply of the locked first half of an effect, or of admitting a replay |
| `ExecutionGate.ExecutionGate.FinishReplay` | pkg/commercegate/gate.go:515-526 | has the effect and reply of the unlocked end of a replay |
| `ExecutionGate.ExecutionGate.Send` | pkg/commercegate/gate.go:537-564 | has the effect and reply of the unlocked network call |
| `ExecutionGate.ExecutionGate.WriteResponse` | pkg/commercegate/gate.go:638-663 | has the effect and reply of storing the response |
| `ExecutionGate.ExecutionGate.Terminalize` | pkg/commercegate/gate.go:568-582 | has the effect and reply of the locked second half of an effect |
| `ExecutionGate.ExecutionGate.PerformHTTPS` | pkg/commercegate/gate.go:466-582 | without interference the whole call is submission, network call, response file and second half in order, stopping at the first that refuses, or the replay |
| `Manifest.BigEndianInverts` | pkg/update/manifest.go:124-143 | a fixed-width number reads back from its big-endian bytes |
| `Manifest.SigningMessage` | pkg/update/manifest.go:124-143 | the buffer writes produce the reference encoding |
| `Manifest.DecodeInverts` | pkg/update/manifest.go:124-143 | the signed bytes decode to the manifest they were made from |
| `Manifest.SigningBytesAreInjective` | pkg/update/manifest.go:104-143 | structurally valid manifests have the same signed bytes if and only if they agree on everything but the signature |
| `ManifestFile.CleanKeepsExactly` | pkg/softwareupdate/manager.go:182-190 | a text comes back from the manifest file unchanged if and only if it is UTF-8 |
| `ManifestFile.ReadsBackExactly` | pkg/softwareupdate/manager.go:383-400 | a structurally valid manifest whose signature is base64 text reads back as itself if and only if its JSON text is at most 16384 bytes and its three free texts are UTF-8 |
| `ManifestFile.PaddingIsSkipped` | pkg/update/manifest.go:75-78 | line breaks after a signature change neither its decoded text nor whether it decodes |
| `UpdateTheorems.TransitionsKeepRoles` | pkg/softwareupdate/manager.go:204-267 | every transition keeps the roles of the slots consistent |
| `UpdateTheorems.StageSparesTheKnownGood` | pkg/softwareupdate/manager.go:130-202 | in every run, even with stores that fail late, staging never touches the active or known-good slot, of disk or of memory |
| `UpdateTheorems.RecoveryAcceptsItsOwnState` | pkg/softwareupdate/manager.go:301-349 | stop the process of an orderly run between any two file operations, or right after a store that failed late, and Open succeeds |
| `UpdateTheorems.StagedSlotAcceptedExactly` | pkg/softwareupdate/manager.go:351-400 | a staged slot is accepted by the next Open if and only if the manifest fits its file and its texts are UTF-8 |
| `UpdateTheorems.ReachableStates` | pkg/softwareupdate/manager.go:431-447 | in every reachable state roles are consistent, referenced slots are installed and the revision is the known-good manifest's |
| `UpdateTheorems.RevisionNeverDecreases` | pkg/softwareupdate/manager.go:223-247 | the security revision never decreases between two moments of a run |
| `UpdateTheorems.KnownGoodOnlyByFirstBoot` | pkg/softwareupdate/manager.go:223-247 | a slot becomes known good only by confirmation in the first process opened after its activation |
| `UpdateTheorems.UnconfirmedCandidateFallsBack` | pkg/softwareupdate/manager.go:301-349 | a candidate whose process ended unconfirmed is left for the known-good slot by the next Open |
| `UpdateTheorems.LateStoreFailureRejectsExactly` | pkg/softwareupdate/manager.go:402-417 | after a store that failed late and a second staging, the next Open accepts exactly for the stated stopping points and artifacts |
| `UpdateTheorems.LateConfirmationLowersExactly` | pkg/softwareupdate/manager.go:223-267 | after a confirmation that failed late, a rollback lowers the durable revision exactly when the candidate's was higher |
| `UpdateExamples.PaddedManifestIsFatal` | pkg/softwareupdate/manager.go:130-202 | any manifest the manager accepts, with line breaks after its signature, is accepted and staged, and the next Open refuses |
| `UpdateExamples.LateStoreIsFatal` | pkg/softwareupdate/manager.go:402-417 | a run with a late store failure and an interrupted second staging after which Open refuses, for every two acceptable updates that differ |
| `UpdateExamples.LateConfirmationLowers` | pkg/softwareupdate/manager.go:223-267 | a run of two installations after which the durable security revision has gone down, for every two acceptable updates of rising revision |
| `UpdateExamples.TheRunsExist` | pkg/softwareupdate/manager.go:130-202 | a trust setting and updates for which these three runs exist |
| `UpdateManager.UniqueReferencedSlots` | pkg/softwareupdate/manager.go:449-459 | lists every referenced slot exactly once |
| `UpdateManager.VerifyReferenced` | pkg/softwareupdate/manager.go:301-381 | the loop accepts exactly the states whose referenced slots are all installed |
| `UpdateManager.StageFiles` | pkg/softwareupdate/manager.go:151-194 | the file operations, stopped anywhere, leave the slot the step function says |
| `UpdateManager.UpdateManager.Open` | pkg/softwareupdate/manager.go:301-349 | has the effect and result of the open step |
| `UpdateManager.UpdateManager.Stage` | pkg/softwareupdate/manager.go:130-202 | has the effect and result of the stage step |
| `UpdateManager.UpdateManager.ActivatePending` | pkg/softwareupdate/manager.go:204-221 | has the effect and result of the activation step |
| `UpdateManager.UpdateManager.ConfirmHealthy` | pkg/softwareupdate/manager.go:223-247 | has the effect and result of the confirmation step |
| `UpdateManager.UpdateManager.Rollback` | pkg/softwareupdate/manager.go:249-267 | has the effect and result of the rollback step |
| `SoftwareWork.AtMostOneExecution` | pkg/softwarework/runner.go:81-152 | over every run the executor is called at most once per execution |
| `SoftwareWork.OutcomesAgree` | pkg/softwarework/runner.go:81-152 | every outcome ever returned for one execution is the same |
| `SoftwareWork.CompletedIsFinal` | pkg/softwarework/journal.go:94-135 | a completed journal record never changes |
| `SoftwareWork.LaterRequestsReplay` | pkg/softwarework/journal.go:47-92 | after completion a request with the same fingerprint gets that outcome, carrying its own identifiers, and any other is refused, unless a different request begun earlier in the run has the same fingerprint |
| `SoftwareWork.RunTraces` | pkg/softwarework/runner.go:81-152 | over every run each completed record and each call in flight goes back to a request begun earlier, with its fingerprint and identifiers |
| `WorkExamples.RepetitionAndConflict` | pkg/softwarework/runner.go:81-152 | a concrete run that meets the hypotheses: one execution, a repetition that gets its outcome, a conflicting request that is refused |
| `SoftwareWork.Runner.ClaimFile` | pkg/softwarework/journal.go:47-92 | a lease is granted only by creating the record; an existing record is returned only for the same fingerprint |
| `SoftwareWork.Runner.Execute` | pkg/softwarework/runner.go:81-152 | is the claim, execution and completion steps in order, stopping at the first that refuses |
| `OutboxTheorems.ResultsAreImmutable` | pkg/messengereventbridge/outbox.go:142-183 | a stored result keeps its content and stays complete once complete |
| `OutboxTheorems.CallsAgree` | pkg/messengereventbridge/publisher.go:65-116 | all calls ever made for one source event are the same request, key and expiry included |
| `OutboxTheorems.AtMostOneQueued` | pkg/messengereventbridge/publisher.go:65-116 | with a daemon that deduplicates on the key, at most one event is ever queued for a source event |
| `OutboxTheorems.CompleteMeansQueuedOnce` | pkg/messengereventbridge/publisher.go:65-111 | a result is complete only if exactly one event was queued for it, provided no other stored result has its key |
| `OutboxExamples.OneOfTwoIsComplete` | pkg/messengereventbridge/publisher.go:65-111 | a concrete run that meets the hypothesis: two stored results, one complete, exactly its event queued |
| `OutboxTheorems.EnqueuedIsReadableExactly` | pkg/messengereventbridge/outbox.go:142-183 | an accepted result reads back if and only if its encoding and the newline fit the limit |
| `OutboxTheorems.CompletedIsReadableExactly` | pkg/messengereventbridge/outbox.go:216-255 | a completed result reads back if and only if its pending encoding was two bytes below the limit |
| `OutboxExamples.World` | pkg/messengereventbridge/outbox.go:142-183 | a usual environment: results look like results, digests like digests, and the sender has a route |
| `OutboxExamples.NewlineStopsPublishing` | pkg/messengereventbridge/outbox.go:142-183 | in every usual environment a result exists that is accepted and after which no publishing pass ever begins |
| `OutboxExamples.CompletionStopsPublishing` | pkg/messengereventbridge/outbox.go:216-255 | in every usual environment a result exists that is accepted, published and completed, and whose completion stops every later pass |
| `OutboxTheorems.PublishingStartsExactly` | pkg/messengereventbridge/outbox.go:185-214 | a publishing pass can begin if and only if every file reads |
| `OutboxTheorems.UnreadableStopsPublishing` | pkg/messengereventbridge/outbox.go:281-302 | an unreadable file is never changed and refuses every later pass |
| `ResultBridge.ResultBridge.Enqueue` | pkg/messengereventbridge/outbox.go:142-183 | has the effect and result of the enqueue step |
| `ResultBridge.ResultBridge.Pending` | pkg/messengereventbridge/outbox.go:185-214 | returns the pending items sorted by event, or an error exactly when some file does not read |
| `ResultBridge.ResultBridge.Complete` | pkg/messengereventbridge/outbox.go:216-255 | has the effect and result of the completion step |
| `ResultBridge.ResultBridge.PublishPending` | pkg/messengereventbridge/publisher.go:65-111 | a pass is one listing followed only by its own call and completion steps, and counts every item it reached as queued or retained |
| `Backend.ActiveRunsAreBounded` | pkg/executor/containerdbackend/backend.go:227-283 | in every interleaving active runs stay within the maximum, no digest runs twice, and closing has cancelled every run |
| `Backend.EngineClosesOnceAndIdle` | pkg/executor/containerdbackend/backend.go:285-313 | the engine is closed at most once and only with no run and no probe in flight |
| `Backend.NothingBeginsAfterClose` | pkg/executor/containerdbackend/backend.go:164-313 | once the engine is closed nothing is ever active again |
| `Backend.ContainerBackend.Register` | pkg/executor/containerdbackend/backend.go:227-262 | has the effect of the admission step and admits exactly a valid, new digest on an open backend with room |
| `Backend.ContainerBackend.BeginClose` | pkg/executor/containerdbackend/backend.go:285-300 | has the effect of the first closing step |
| `Supervisor.SlotsBoundActive` | pkg/executor/supervisor.go:87-140 | in every interleaving active digests are at most the slots in use, which are at most the capacity, and no digest runs twice |
| `Supervisor.CloseDrainsInOrder` | pkg/executor/supervisor.go:142-155 | the driver closes at most once with no probe in flight, and Close returns only when no run, slot or digest is left |
| `Supervisor.SupervisedBackend.Register` | pkg/executor/supervisor.go:87-121 | has the effect of the admission step and admits exactly a valid, new digest on an open backend with a free slot |
| `Supervisor.SupervisedBackend.ReleaseSlot` | pkg/executor/supervisor.go:123-129 | giving a slot back never blocks, because the run holds one |
| `GpuLease.NewDevices` | executor/gpuisolation/client.go:31-43 | accepts exactly valid, distinct aliases and keeps them sorted |
| `GpuLease.LeasesPartitionTheDevices` | executor/gpuisolation/client.go:88-123 | in every interleaving leases are disjoint, consist of known devices, add up with the free ones to all devices, and none is left when no run is |
| `GpuLease.GrantIsExact` | executor/gpuisolation/client.go:88-113 | a grant is the requested number of free devices in order; it is refused exactly when negative, too large, or its owner already holds devices |
| `GpuLease.Client.Acquire` | executor/gpuisolation/client.go:88-113 | the scan books exactly the granted devices to the owner, or nothing |
| `GpuLease.Client.Release` | executor/gpuisolation/client.go:115-123 | frees exactly the listed devices that the owner holds |
| `GpuLease.Client.RunIsolated` | executor/gpuisolation/client.go:45-77 | whatever the backend does, a panic included, an undisturbed run leaves the leases as they were; it reports success only if the backend did and the caller had not cancelled |
| `GpuLease.ReleaseReturnsExactly` | executor/gpuisolation/client.go:115-123 | whatever interleaved, giving back frees exactly the devices of this run and leaves every other lease alone |
| `ControlText.SplitInverts` | pkg/probe/cgroup_linux.go:588-600 | splitting loses nothing and leaves no separator inside a part |
| `ControlText.MarkRange` | pkg/probe/cgroup_linux.go:618-624 | marks exactly the CPUs of a range, unless one was marked before |
| `ControlText.ParseCPUSet` | pkg/probe/cgroup_linux.go:588-630 | accepts exactly well-formed lists that name no CPU twice and returns the size of the set they name |
| `ControlText.ReadableSetsAreBounded` | pkg/probe/cgroup_linux.go:588-630 | an accepted list names between one and 4096 CPUs |
| `Cgroup.LeastIsExact` | pkg/probe/cgroup_linux.go:403-437 | the chain fails exactly when a directory does; otherwise its limit is stated by a directory and is the least one stated |
| `Cgroup.WalkAncestors` | pkg/probe/cgroup_linux.go:403-539 | the walk with its zero sentinel returns exactly the chain's limit, for memory and for both kinds of CPU quota, within the depth bound |
| `Cgroup.SmallestRatioDecides` | pkg/probe/cgroup_linux.go:454-553 | rounding each quota up and taking the least is rounding up the smallest quota-to-period ratio |
| `Cgroup.SmallestRatioExists` | pkg/probe/cgroup_linux.go:454-539 | a chain with a quota has a directory with the smallest ratio |
| `Cgroup.QuotaIsSmallestRatio` | pkg/probe/cgroup_linux.go:454-553 | a chain without an error has no limit exactly without quotas, and otherwise what its smallest ratio is worth |
| `Cgroup.CeilingIsTight` | pkg/probe/cgroup_linux.go:541-553 | the count before clamping is the least number of whole CPUs that covers the quota |
| `Cgroup.NearestSetIsNearest` | pkg/probe/cgroup_linux.go:555-586 | the nearest directory with a CPU list decides and nothing above it is consulted |
| `Cgroup.WalkCPUSets` | pkg/probe/cgroup_linux.go:555-586 | the walk returns exactly the nearest list's size, no limit, or an error |
| `EffectiveResources.SelectMount` | pkg/probe/cgroup_linux.go:326-356 | the loop computes the reference selection |
| `EffectiveResources.SelectionIsExact` | pkg/probe/cgroup_linux.go:326-356 | no candidate, a clash with no longer root before it, or the longest root with every equally long candidate leading to the same place |
| `EffectiveResources.SelectionAgrees` | pkg/probe/cgroup_linux.go:326-356 | reordering the mounts never changes the place chosen when both orders choose one |
| `EffectiveResources.AmbiguityDependsOnOrder` | pkg/probe/cgroup_linux.go:343-350 | a mount table that is an error in one order and accepted in another |
| `EffectiveResources.OrderFreeExactly` | pkg/probe/cgroup_linux.go:326-356 | every order of a mount table agrees on being an error if and only if no two candidates clash or two of the greatest root length do |
| `EffectiveResources.Observe` | pkg/probe/cgroup_linux.go:70-214 | the whole observation computes the reference result, errors included |
| `EffectiveResources.EffectiveIsTightest` | pkg/probe/cgroup_linux.go:95-213 | the result is positive, within the host and every limit in charge, and equal to one of them |
| `EffectiveResources.MemoryIsTheMinimum` | pkg/probe/cgroup_linux.go:95-128 | effective memory is at most the host's and every directory's limit, and equals one of them |
| `EffectiveResources.CPUsAreTheMinimum` | pkg/probe/cgroup_linux.go:130-209 | effective CPUs are the least of the host's supported CPUs, the smallest quota ratio rounded up, and the CPU set |
| `ResourceGuard.Evaluate` | internal/resourceguard/guard.go:169-206 | the 64-bit check accepts exactly the safe reports, with device memory added without wrapping |
| `ResourceGuard.Guard.Observe` | internal/resourceguard/guard.go:136-167 | has the effect of the recording step |
| `ResourceGuard.NewGuard` | internal/resourceguard/guard.go:53-76 | a monitor exists exactly for usable settings and a safe first report, and starts ready |
| `ResourceGuard.CountsAreExact` | internal/resourceguard/guard.go:136-167 | after any history the counters measure the current run of samples, up to the thresholds, and the GPU status is a known one |
| `ResourceGuard.ReadinessIsHysteresis` | internal/resourceguard/guard.go:136-167 | after any history work is refused exactly while a full run of bad samples has not been followed by a full run of good ones |
| `IsolationSpec.QuotaIsExactCeiling` | pkg/executor/containerdbackend/spec.go:210-221 | for all 64-bit inputs a returned quota is the exact ceiling; a sum that wraps returns none |
| `IsolationSpec.QuotaExistsExactly` | pkg/executor/containerdbackend/spec.go:210-221 | within the driver's bounds a quota exists exactly for runs of a millisecond or more with more than 0.999 percent of a CPU |
| `IsolationSpec.ValidateLimits` | pkg/executor/containerdbackend/spec.go:61-77 | accepts exactly limits within the bounds that have a quota and agree on GPUs |
| `IsolationSpec.BoundTmpfs` | pkg/executor/containerdbackend/spec.go:232-266 | the rewriting in place changes exactly the writable mounts and succeeds exactly for the expected number of them |
| `IsolationSpec.BindDeclares` | pkg/executor/containerdbackend/spec.go:249-259 | a rewritten mount declares exactly its share, read back from its text, keeps its other options and cannot execute unless it is the workspace |
| `IsolationSpec.TmpfsFitsDisk` | pkg/executor/containerdbackend/spec.go:232-266 | after success the writable mounts together hold at most the disk limit, and all of it but less than a byte per mount |
| `IsolationSpec.CountDoesNotIdentify` | pkg/executor/containerdbackend/spec.go:241-264 | a mount list that is accepted without any mount at an expected place |
| `IsolationSpec.DistinctMountsAreComplete` | pkg/executor/containerdbackend/spec.go:241-264 | when no two writable mounts share a place the count is right exactly when every expected place has its mount |
| `IsolationSpec.AcceptedCompleteExactly` | pkg/executor/containerdbackend/spec.go:241-264 | on an accepted mount list every expected place is bounded if and only if no two writable mounts share a place |

## Left out

- UpdateTheorems.RecoveryAcceptsItsOwnState: an orderly run is one in which every manifest put in charge of a slot reads back and a process whose store failed late ends before doing anything else; StagedSlotAcceptedExactly and LateStoreFailureRejectsExactly state what happens otherwise.
- UpdateTheorems.ReachableStates: states orderly runs only, for the same reason.
- UpdateTheorems.RevisionNeverDecreases: states orderly runs only; LateConfirmationLowersExactly states when it fails without that.
- UpdateTheorems.KnownGoodOnlyByFirstBoot: states orderly runs only.
- UpdateTheorems.UnconfirmedCandidateFallsBack: states orderly runs only.
- UpdateTheorems.StagedSlotAcceptedExactly: assumes that a signature does not also verify the altered text a non-UTF-8 manifest reads back as.
- GateReplay.RepliesAgree: about runs whose recorded effects have separate response files; the Gate leaves it to the authority to give effects distinct stable identities.
- GateReplay.TerminalEffectsHaveResponses: same condition on the run.
- GateReplay.ReplaysAreAnswered: same condition on the run.
- OutboxTheorems.AtMostOneQueued: the daemon is outside the repository and is assumed to queue at most one event per idempotency key.
- OutboxTheorems.CompleteMeansQueuedOnce: about runs in which no other stored result has this result's idempotency key.
- SoftwareWork.LaterRequestsReplay: about runs in which no different request begun earlier has this request's fingerprint.
- Outbox texts are Unicode strings, so conversation and sender names that are not UTF-8, which the encoder alters, lie outside the model; the same holds for path components of control groups.
- GpuLease.Client.RunIsolated: one run without interleaving; interleavings are stated by LeasesPartitionTheDevices and ReleaseReturnsExactly.
- EffectiveResources.Observe: memberships and mounts arrive parsed, and a path is its components; reading /proc/self/cgroup and /proc/self/mountinfo as text is left out.
- ResourceGuard.NewGuard: the timer goroutine is not modelled; samples arrive as a history.
- JSON text of Gate records, journal records and the update state: a file is its value or torn, with a size predicate; manifests and outbox records have their exact text length.
- Cryptography, random secrets and clocks: signatures, digests, secrets and times are parameters.
- Request validation of pinned HTTPS calls, file identity checks and the TLS connection (pkg/commercegate/gate.go): each is one answer in the event.
- Closing the Gate, runner or outbox while calls are in flight is modelled as the process ending; two processes on one directory are not modelled.
- File permissions, ownership checks and directory synchronisation appear only as write outcomes.
- The aliasing by which sorting a plan's bindings reorders the caller's slices: plans are values.
- The container specification beyond limits, CPU quota and tmpfs mounts (namespaces, capabilities, environment).
- The capability gate, the commerce protocol codecs, the command-line programs and the network front ends.
