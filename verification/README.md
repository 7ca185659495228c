# Verified models of the service fabrik broker and the interoperator

This project models, in Dafny, the parts of the repository in which an algorithm or a protocol does real work,
and proves what those parts are relied upon for. `dafny verify dfyconfig.toml` checks all of it.

**Leases over an optimistic-concurrency store.** `VersionedStore` is the contract of the API server: every
accepted write gets a new, larger version; a merge patch that carries a version is accepted only while that
version is current; creation is accepted only of what is absent; and a call may fail before it takes effect or
lose its reply after it did. Four protocols run on that store, each as a state machine in which any number of
clients interleave at every request: the deployment lock (`LockManager`, `LockRuns`), the poller that releases
it (`UnlockPoller`), the processing lock of the operators (`ProcessingLock`) and the lock of the status pollers
(`StatusPolling`). The classes in these modules hold the code of one client, continuation by continuation, and
are proved to take exactly the steps of the machine.

**Replication between clusters.** `InstanceReplicator` has the reconcile loop as a step function over two clusters,
and as a class whose methods are proved to compute it. At every API call the broker and the provisioner may take
any steps first, and the call may fail. What the master shows as finished is always how the provisioner finished the
request that the master carries.

**Reconciliation.** `DeepUpdates` has the recursive merge, `ReconcileResources` the loop that creates, updates and
deletes cluster objects with it.

**Traversal, parsing and printing.** `CollectDependencies` (depth-first search with a shared visited set),
`Demux` (an incremental frame parser with a sliding window), `BackupFiles` (file names, timestamps, the newest
backup) and `NetworkIndex` (deployment names and the allocation of their indices).

**Small stateful engines.** `Retry`, `EventQueue` and `DirectorCache`. `Wrappers` and `Decimals` hold what several modules
share.

Code that only computes is written as functions; code that changes things step by step is written as methods
and classes, whose contracts tie the new state to such functions. Clocks, random choices, watch events, the order
in which a Go map is traversed, and failures of calls are parameters or arbitrary values, so that the theorems
hold for all of them.

Five properties one might expect are false of the code. Each is stated with its exact condition:

- Merging two updates first and applying the result may succeed where applying them one after the other panics
  (`DeepUpdates.MergingFirstCanHideAClash`). The two ways are defined on the same second updates if and only if
  the first update applies (`DeepUpdates.MergingFirstAgreesExactly`, and `DeepUpdates.MergingMapsFirstAgreesExactly`
  among maps), and then they agree.
- The processing lock is exclusive only while no invocation outlives its stamp: a second one can join an active one
  if and only if the stamp of that one has timed out (`ProcessingLock.JoinedExactlyOnOverrun`), and then loses its
  stamp to the release of the first (`ProcessingLock.OverrunBreaksExclusion`).
- A late answer to a timer of the unlock poller that an event has replaced in the meantime makes the poller lose
  track of the newer timer; `UnlockPoller.ClearingKeepsTrack` says exactly when.
- The last backup file in the order of printed start times need not be the newest, where a listing mixes files under
  the excluded root with others, as their times are printed differently: it is exactly if no file under that root is
  eclipsed (`BackupFiles.NewestIsLast`), and none is in a listing of one tenant (`BackupFiles.OneTenantEclipsesNone`).
- The director cache need not name the directors of a deployment rightly, and may depend on the order in which
  listings arrive. For any listings, its entry is right, and the order cannot show, if and only if at most one
  director lists the deployment or two that do differ in name (`DirectorCache.EntryAgrees`,
  `DirectorCache.OrderShowsExactly`); uniquely named directors always meet that.

Code and documentation disagree in three places, and the model follows the code. The comments of `LockManager`
say that locking creates the lock object first and that unlocking deletes it
(`broker/data-access-layer/eventmesh/src/LockManager.js:81-89,177-179`); the code reads first, and unlocking
patches the state. The comment of `UnlockResourcePoller` says that it polls backup operations only
(`broker/data-access-layer/eventmesh/src/UnlockResourcePoller.js:50-53`); the code polls for every lock. And
`isoDate` is said to strip the seconds (`broker/data-access-layer/iaas/src/BackupStore.js:398-403`); it strips the
milliseconds.

## Model

| member | source | states |
|---|---|---|
| VersionedStore.ReadsShow | broker/data-access-layer/eventmesh/src/ApiServerClient.js:644-678 | A read that is answered shows the stored object, or says that there is none. |
| VersionedStore.CreationAnswers | broker/data-access-layer/eventmesh/src/ApiServerClient.js:430-477 | Left alone, creation stores the object under the next version exactly if there is none, and is a conflict otherwise. |
| VersionedStore.PatchAnswers | broker/data-access-layer/eventmesh/src/ApiServerClient.js:488-542 | Left alone, a patch stores the changed object under the next version exactly if there is one and, if it carries a version, that is the current one; otherwise it is a conflict, or the object is not found. |
| VersionedStore.FaultsHide | broker/data-access-layer/eventmesh/src/ApiServerClient.js:430-542 | A call that is dropped changes nothing, one whose reply is lost does what it would have done, and neither is answered well. |
| LockManager.LockRequest.constructor | broker/data-access-layer/eventmesh/src/LockManager.js:103-114 | A call samples the clock once, and locks as of a given lock time or else of that sample. |
| LockManager.LockRequest.Proceed | broker/data-access-layer/eventmesh/src/LockManager.js:116-174 | Each continuation of a call takes exactly the step of the protocol: read, take over under the version read, create, or report the holder. |
| LockManager.TryUnlock | broker/data-access-layer/eventmesh/src/LockManager.js:186-217 | One unlock attempt patches the state, under the lock id if one is given; conflict and absence are not errors. |
| LockManager.Unlock | broker/data-access-layer/eventmesh/src/LockManager.js:186-217 | Attempts are repeated as long as they get no answer, up to the given number of them. |
| LockManager.RetriedUnlockIsOne | broker/data-access-layer/eventmesh/src/LockManager.js:193-217 | However the attempts of a fenced unlock fail, and even if replies are lost, together they do what one attempt does, or nothing, and report success only if it is done. |
| LockManager.LockAnswers | broker/data-access-layer/eventmesh/src/LockManager.js:103-175 | Left alone, a call stores the new lock and is granted the new version if and only if the object is absent, unlocked, or held for at least its time to live; otherwise it reports the holder and writes nothing. |
| LockManager.LostRaceReports | broker/data-access-layer/eventmesh/src/LockManager.js:160-174 | A call whose lock was taken or created by another one since it read reports the holder and writes nothing. |
| LockManager.UnlockAnswers | broker/data-access-layer/eventmesh/src/LockManager.js:186-213 | Left alone, an unlock releases the lock if there is one and it is still that of the given id, and keeps its options. |
| LockRuns.RunKeepsInv | broker/data-access-layer/eventmesh/src/LockManager.js:103-175 | Every run of any number of interleaved lock calls, unlocks and pollers keeps the invariant that relates the stored lock, the pending calls and the history. |
| LockRuns.LockExclusion | broker/data-access-layer/eventmesh/src/LockManager.js:121-158 | Between two consecutive grants on one resource lies an accepted unlock, or the later requester's sampled time was at least the earlier operation's TTL past the stored lock time. |
| LockRuns.AtMostOneLive | broker/data-access-layer/eventmesh/src/LockManager.js:121-158 | At no moment of any run are two grants on one resource unreleased and unexpired. |
| LockRuns.LockIdsIncrease | broker/data-access-layer/eventmesh/src/LockManager.js:146-158 | Lock ids of successive grants strictly increase. |
| LockRuns.UnlockFences | broker/data-access-layer/eventmesh/src/LockManager.js:204-213 | An unlock under the version of a history entry releases what that entry wrote if it is the latest, and otherwise changes nothing. |
| LockRuns.FencedUnlock | broker/data-access-layer/eventmesh/src/LockManager.js:186-217 | In every run, an unlock under the id of a grant releases that very grant or changes nothing, never a later one. |
| LockRuns.PollerReleasesWhatItSaw | broker/data-access-layer/eventmesh/src/UnlockResourcePoller.js:40-48 | In every run, a poller's unlock under the version of its event releases the grant that wrote that version, or changes nothing. |
| LockRuns.GrantedMeansGranted | broker/data-access-layer/eventmesh/src/LockManager.js:145-158 | A call that reports success has its own grant in the history, under the id it reports. |
| LockRuns.UndisturbedCall | broker/data-access-layer/eventmesh/src/LockManager.js:103-175 | Started in any world and left alone, a call does there what it does by itself, and a grant of it is in the history. |
| LockRuns.WaitedOut | broker/data-access-layer/eventmesh/src/LockManager.js:121-158 | Once the time to live of a held lock is over, whoever asks is granted it. |
| LockRuns.SeenIsReleased | broker/data-access-layer/eventmesh/src/UnlockResourcePoller.js:22-49 | What the poller sees locked it releases, if nobody wrote it since. |
| UnlockPoller.UnlockResourcePoller.constructor | broker/data-access-layer/eventmesh/src/UnlockResourcePoller.js:103-104 | No timer runs at first. |
| UnlockPoller.UnlockResourcePoller.ClearPoller | broker/data-access-layer/eventmesh/src/UnlockResourcePoller.js:96-102 | Stops the given timer and forgets the one kept for the lock. |
| UnlockPoller.UnlockResourcePoller.StartPoller | broker/data-access-layer/eventmesh/src/UnlockResourcePoller.js:55-69 | An event stops the timer kept for its lock and starts one that watches the version of the event, unless the lock has expired; no running timer is lost. |
| UnlockPoller.UnlockResourcePoller.Poll | broker/data-access-layer/eventmesh/src/UnlockResourcePoller.js:22-49 | The lock is unlocked, with retries, under the version of the event exactly when the resource is in a final state or gone, and the timer is stopped once the unlock was answered. |
| UnlockPoller.RestartKeeps | broker/data-access-layer/eventmesh/src/UnlockResourcePoller.js:57-67 | The new timer watches what the event showed and is the one kept for the lock; the one kept before is stopped; every running timer stays tracked and no other changes. |
| UnlockPoller.ClearedExactly | broker/data-access-layer/eventmesh/src/UnlockResourcePoller.js:96-102 | A cleared timer no longer runs, none is kept for its lock, and nothing else changes. |
| UnlockPoller.ClearingKeepsTrack | broker/data-access-layer/eventmesh/src/UnlockResourcePoller.js:96-102 | Stopping a finished timer keeps all running timers tracked if and only if no other timer is kept for the same lock. |
| UnlockPoller.ClearingLeavesAllKept | broker/data-access-layer/eventmesh/src/UnlockResourcePoller.js:96-102 | Whatever was tracked before, after a timer is stopped all running timers are tracked if and only if every other one belongs to another lock and is the one kept for it. |
| UnlockPoller.LateAnswerLosesTimer | broker/data-access-layer/eventmesh/src/UnlockResourcePoller.js:41-67 | Two events followed by a late answer to the first timer leave the second timer running untracked. |
| ProcessingLock.HandleResource.constructor | broker/applications/operators/src/BaseOperator.js:159-168 | An invocation starts from the object of the watch event, without conflict. |
| ProcessingLock.HandleResource.PreProcessRequest | broker/applications/operators/src/BaseOperator.js:98-116 | An invocation gives up exactly when the event shows a stamp of somebody that has not timed out at the check; otherwise it goes on with a stamp of its own, taken by a second clock reading. |
| ProcessingLock.HandleResource.AcquireProcessingLock | broker/applications/operators/src/BaseOperator.js:53-73 | The stamp is written under the version of the event; any failure ends the invocation. |
| ProcessingLock.HandleResource.HandlerDone | broker/applications/operators/src/BaseOperator.js:172-187 | The lock is released after the handler returned or threw, unless it asked to hold it. |
| ProcessingLock.HandleResource.PostProcessRequest | broker/applications/operators/src/BaseOperator.js:139-149 | The release clears both annotations whatever the version. |
| ProcessingLock.ActiveBlocksOthers | broker/applications/operators/src/BaseOperator.js:98-130 | While an invocation is active in time, nobody else's request for the lock is accepted. |
| ProcessingLock.ProperRunKeepsInv | broker/applications/operators/src/BaseOperator.js:53-195 | Every run in which handlers release in time keeps the invariant that the stamp stored is that of the active invocation. |
| ProcessingLock.ProcessingIsExclusive | broker/applications/operators/src/BaseOperator.js:98-137 | In every such run at most one invocation per resource is active. |
| ProcessingLock.ReleaseClearsOwnStamp | broker/applications/operators/src/BaseOperator.js:79-96 | The unconditional release clears the releaser's own stamp and nobody else's. |
| ProcessingLock.OverrunBreaksExclusion | broker/applications/operators/src/BaseOperator.js:107-116 | Whenever an active invocation, in its handler or with its release pending, outlives its stamp, a second one can become active, and the release of the first clears the stamp of the second. |
| ProcessingLock.JoinedExactlyOnOverrun | broker/applications/operators/src/BaseOperator.js:107-130 | After any proper run and any pause a second invocation can join an active one if and only if the stamp of that one has timed out. |
| ProcessingLock.EntryAnswers | broker/applications/operators/src/BaseOperator.js:53-137 | Left alone, an invocation goes on, with its own stamp stored, if and only if the resource was not stamped or its stamp is 300 seconds old at the check; otherwise it ends and writes nothing. |
| ProcessingLock.ExitAnswers | broker/applications/operators/src/BaseOperator.js:139-195 | Left alone, an invocation leaves the resource unstamped and otherwise as it was, unless its handler asked to hold the lock. |
| ProcessingLock.LostRaceEnds | broker/applications/operators/src/BaseOperator.js:117-137 | An invocation whose resource is gone or was written since the event ends without writing; without an answer it ends too. |
| StatusPolling.PollStatus.constructor | broker/applications/operators/src/BaseStatusPoller.js:75-83 | A poll starts by reading the resource. |
| StatusPolling.PollStatus.GetResource | broker/applications/operators/src/BaseStatusPoller.js:79-84 | A poll works on what it reads, or ends on an error. |
| StatusPolling.PollStatus.AcquireLock | broker/applications/operators/src/BaseStatusPoller.js:42-57 | A poll is skipped exactly when another address renewed its stamp less than the interval and the relaxation time before the check; otherwise it goes on with a stamp of its own, taken by a second clock reading. |
| StatusPolling.PollStatus.UpdateResource | broker/applications/operators/src/BaseStatusPoller.js:58-70 | The new stamp is written under the version read; a conflict skips the poll. |
| StatusPolling.RunKeepsInv | broker/applications/operators/src/BaseStatusPoller.js:37-101 | Every run of any number of interleaved polls keeps the annotation equal to the last accepted stamp and the stamps properly apart. |
| StatusPolling.PollersKeepApart | broker/applications/operators/src/BaseStatusPoller.js:43-46 | In every run, any two stamps of different addresses on one resource are at least the poll interval and the relaxation time apart. |
| StatusPolling.StampReserves | broker/applications/operators/src/BaseStatusPoller.js:43-70 | Until the last stamp times out, a stamp of another address is not accepted. |
| StatusPolling.AcquiredMeansStamped | broker/applications/operators/src/BaseStatusPoller.js:85-92 | Only a poll whose stamp was accepted goes on to ask for the status. |
| StatusPolling.PollAnswers | broker/applications/operators/src/BaseStatusPoller.js:37-101 | Left alone, a process polls if and only if the stamp is its own, or nobody's, or at least the interval and five seconds old, and then leaves its stamp and the rest of the resource alone. |
| StatusPolling.LostRaceSkips | broker/applications/operators/src/BaseStatusPoller.js:58-101 | A poll whose resource was written since it was read is skipped and writes nothing; without an answer, or the resource, it ends on an error. |
| InstanceReplicator.Replicator.Get | interoperator/controllers/multiclusterdeploy/sfserviceinstancereplicator/sfserviceinstancereplicator_controller.go:163-178 | A read is served after the others took their steps, and shows the instance or fails. |
| InstanceReplicator.Replicator.Update | interoperator/controllers/multiclusterdeploy/sfserviceinstancereplicator/sfserviceinstancereplicator_controller.go:247-254 | A write is accepted only at the version that was read. |
| InstanceReplicator.Replicator.CreateSister | interoperator/controllers/multiclusterdeploy/sfserviceinstancereplicator/sfserviceinstancereplicator_controller.go:165-173 | A replica is created only where there is none. |
| InstanceReplicator.Replicator.DeleteSister | interoperator/controllers/multiclusterdeploy/sfserviceinstancereplicator/sfserviceinstancereplicator_controller.go:149-160 | A delete marks the replica while finalizers hold it, and removes it otherwise. |
| InstanceReplicator.Replicator.Push | interoperator/controllers/multiclusterdeploy/sfserviceinstancereplicator/sfserviceinstancereplicator_controller.go:149-188 | The code hands a request over as the step function does: delete, read, create or update. |
| InstanceReplicator.Replicator.SetInProgress | interoperator/controllers/multiclusterdeploy/sfserviceinstancereplicator/sfserviceinstancereplicator_controller.go:428-476 | The code marks the request as handed over as the step function does, retrying on conflicts. |
| InstanceReplicator.Replicator.Collect | interoperator/controllers/multiclusterdeploy/sfserviceinstancereplicator/sfserviceinstancereplicator_controller.go:198-255 | The code brings progress or the answer back as the step function does. |
| InstanceReplicator.Replicator.Reconcile | interoperator/controllers/multiclusterdeploy/sfserviceinstancereplicator/sfserviceinstancereplicator_controller.go:74-263 | The code makes exactly the step of the reconcile function, whatever the others do between its calls and whichever of them fail. |
| InstanceReplicator.PushingHandsOver | interoperator/controllers/multiclusterdeploy/sfserviceinstancereplicator/sfserviceinstancereplicator_controller.go:149-188 | If it succeeds the replica carries the outstanding request, or is gone for a delete, whatever happened in between. |
| InstanceReplicator.SettlingShows | interoperator/controllers/multiclusterdeploy/sfserviceinstancereplicator/sfserviceinstancereplicator_controller.go:428-476 | Only a request that the replica carries is shown as in progress; undisturbed it is. |
| InstanceReplicator.ConflictIsRetried | interoperator/controllers/multiclusterdeploy/sfserviceinstancereplicator/sfserviceinstancereplicator_controller.go:428-476 | If the master is written between read and write, the mark is put on what was written, if that still makes the same request. |
| InstanceReplicator.CollectingAnswers | interoperator/controllers/multiclusterdeploy/sfserviceinstancereplicator/sfserviceinstancereplicator_controller.go:198-255 | What is copied back keeps a finished master truthful, and a finished replica finishes the master. |
| InstanceReplicator.ReconcilingKeeps | interoperator/controllers/multiclusterdeploy/sfserviceinstancereplicator/sfserviceinstancereplicator_controller.go:74-263 | Whatever fails and whoever interferes, the invariant is kept and an outstanding request is neither lost, set back nor replaced; undisturbed, a reconcile hands it over and brings its answer back, and does nothing when none is outstanding. |
| InstanceReplicator.SuccessIsTrue | interoperator/controllers/multiclusterdeploy/sfserviceinstancereplicator/sfserviceinstancereplicator_controller.go:74-263 | A reconcile that reports success has done its job, whatever happened meanwhile: an outstanding request was handed over, a finished one answered. Undisturbed, it reports success. |
| InstanceReplicator.FailureIsReported | interoperator/controllers/multiclusterdeploy/sfserviceinstancereplicator/sfserviceinstancereplicator_controller.go:74-263 | If any call of a reconcile failed, the reconcile reports an error, so that it is repeated. |
| InstanceReplicator.RequestIsHandedOver | interoperator/controllers/multiclusterdeploy/sfserviceinstancereplicator/sfserviceinstancereplicator_controller.go:149-196 | Undisturbed, the replica gets spec, label and status of the master, keeps its resources, and is marked for a delete; the master shows its request as in progress under its label, or as done if there is nothing to delete. |
| InstanceReplicator.CopyComesBack | interoperator/controllers/multiclusterdeploy/sfserviceinstancereplicator/sfserviceinstancereplicator_controller.go:198-255 | Undisturbed, a master in progress becomes a copy of the replica in spec, label and status, unless the replica was not taken up yet; a replica that is gone makes it a success. |
| InstanceReplicator.CompletionAnswers | interoperator/controllers/multiclusterdeploy/sfserviceinstancereplicator/sfserviceinstancereplicator_controller.go:147-255 | From every state a run can be in, one undisturbed reconcile, the provisioner finishing and another reconcile leave the master finished, with the provisioner's result and resources, or with the success of a delete that left no replica. |
| InstanceReplicator.ProvisionedIsFinished | interoperator/controllers/provisioners/sfserviceinstance/sfserviceinstance_controller.go:127-188 | A request that was handed over is finished by the provisioner's work, with its result, or by removing the replica. |
| InstanceReplicator.NoStaleResult | interoperator/controllers/multiclusterdeploy/sfserviceinstancereplicator/sfserviceinstancereplicator_controller.go:162-255 | No stale result: in every run, a finished master carries the latest request and shows the very status with which the provisioner finished it; the resources of the replica are what the provisioner recorded. |
| InstanceReplicator.OthersComeFirst | interoperator/controllers/multiclusterdeploy/sfserviceinstancereplicator/sfserviceinstancereplicator_controller.go:74-263 | In every run, what the others do while the first call of a reconcile is under way comes before that call takes effect. |
| InstanceReplicator.BrokerStepKeeps | broker/applications/osb-broker/src/api-controllers/ServiceBrokerApiController.js:312-331 | The broker's requests, made only on a finished instance, keep the invariant. |
| InstanceReplicator.BrokerRequests | broker/applications/osb-broker/src/api-controllers/ServiceBrokerApiController.js:312-331 | The broker creates an instance where there is none, and asks a finished one for an update, or, once it is marked, for its deletion; each is a request of its own number. |
| InstanceReplicator.ProvisionerStepKeeps | interoperator/controllers/provisioners/sfserviceinstance/sfserviceinstance_controller.go:76-190 | The provisioner's steps keep the invariant and never set a request back. |
| InstanceReplicator.HandingOverKeeps | interoperator/controllers/multiclusterdeploy/sfserviceinstancereplicator/sfserviceinstancereplicator_controller.go:460-470 | Once the replica carries the request the master may show it as in progress. |
| InstanceReplicator.CollectingKeeps | interoperator/controllers/multiclusterdeploy/sfserviceinstancereplicator/sfserviceinstancereplicator_controller.go:212-247 | What comes back from a replica that carries the request is progress on it or its answer. |
| DeepUpdates.DeepUpdate | interoperator/internal/dynamic/dynamic.go:92-151 | The merge panics exactly if no tree contains the update and differs from the old tree only where the update speaks; otherwise it yields that tree, and its flag is true exactly when the tree changed. |
| DeepUpdates.UpdateFields | interoperator/internal/dynamic/dynamic.go:95-110 | The same for maps, in whatever order the keys come. |
| DeepUpdates.UpdateItems | interoperator/internal/dynamic/dynamic.go:111-144 | The same for both kinds of lists, of whatever lengths. |
| DeepUpdates.CoveredIsFixed | interoperator/internal/dynamic/dynamic.go:92-151 | A tree is left unchanged if and only if it already contains everything the update says. |
| DeepUpdates.MergeIsTheFramedCover | interoperator/internal/dynamic/dynamic.go:92-151 | The merged tree is the one and only tree that contains the update and differs from the old one only where the update speaks. |
| DeepUpdates.CompatibleExactly | interoperator/internal/dynamic/dynamic.go:92-151 | Two trees can be merged if and only if some tree contains the new one and differs from the old one only where the new one speaks. |
| DeepUpdates.MergeIsIdempotent | interoperator/internal/dynamic/dynamic.go:92-151 | A second merge with the same update changes nothing. |
| DeepUpdates.MergeIsAnAction | interoperator/internal/dynamic/dynamic.go:92-151 | Two updates in a row equal one merged update, and the two ways are defined on the same inputs once the first update applies. |
| DeepUpdates.MergingFirstAgreesExactly | interoperator/internal/dynamic/dynamic.go:92-151 | For any document and first update, the two ways are defined on the same second updates if and only if the first update applies. |
| DeepUpdates.MergingMapsFirstAgreesExactly | interoperator/internal/resources/resources.go:142 | The same among maps, which is all that a reconcile passes: if the first update does not apply, a map shows it. |
| DeepUpdates.MergingFirstCanHideAClash | interoperator/internal/dynamic/dynamic.go:145-149 | There are such clashes: a merged update that is defined where the two updates in a row panic. |
| ReconcileResources.ReconcileResources | interoperator/internal/resources/resources.go:107-193 | Nothing but expected and outdated objects is touched; a successful run provisions every expected object and deletes, triggers or still refers to every outdated one, the last only after a failed call or for an operator that cannot be asked; it aborts only after a failed call; an unforced run with nothing to do writes nothing. |
| ReconcileResources.RerunWritesNothing | interoperator/internal/resources/resources.go:107-193 | When no delete failed, a second run on the returned references makes no write request at all. |
| ReconcileResources.Provision | interoperator/internal/resources/resources.go:108-163 | The first loop creates or updates the expected objects in order, and stops at the first error or panic without having touched anything else; without a failed call it gets through unless a merge panics. |
| ReconcileResources.ProvisionOne | interoperator/internal/resources/resources.go:109-162 | One expected object is created, replaced, merged over, or left unwritten if it is covered; that stops exactly if a call failed, and clashes only where the merge panics. |
| ReconcileResources.SweepOutdated | interoperator/internal/resources/resources.go:165-187 | The second loop removes or triggers every outdated object or keeps a reference to it, each once, and keeps one only after a failed call or for an operator that cannot be asked. |
| ReconcileResources.ProvisionedObject | interoperator/internal/resources/resources.go:124-162 | With distinct identities every expected object is created as specified, replaced, or merged over what was there, keeping its deletion timestamp, and covers its specification. |
| ReconcileResources.ProvisionedTouchesOnlyExpected | interoperator/internal/resources/resources.go:109-163 | Provisioning changes no object outside the expected ones. |
| ReconcileResources.ApplyCovered | interoperator/internal/resources/resources.go:140-161 | Applying a specification that is already covered changes nothing. |
| ReconcileResources.SweepAgain | interoperator/internal/resources/helper.go:102-131 | Deleting an object again leaves it gone or triggered as it was. |
| ReconcileResources.MarkDeleteMarks | interoperator/internal/resources/helper.go:102-131 | Asking an operator to delete sets the state in the status to delete and nothing else, and fails exactly on a status that is not a map. |
| ReconcileResources.OperatorsAreAsked | interoperator/internal/resources/helper.go:90-135 | Objects of the two operators are asked to delete themselves; every other object gets a deletion timestamp. |
| ReconcileResources.FindUnstructuredObject | interoperator/internal/resources/helper.go:81-88 | Finds an object exactly if one of the same kind, version, name and namespace is listed. |
| ReconcileResources.DeleteSubResource | interoperator/internal/resources/helper.go:90-135 | Only this object may change, by removal or its delete trigger; success means one of the two happened, and "not found" that it does not exist; it fails only after a failed call or for an operator that cannot be asked, and with a conflict only after five. |
| ReconcileResources.DeleteSubResources | interoperator/internal/resources/resources.go:256-287 | A subresource is forgotten only once it does not exist, and success means every remaining one is on its way out; without a failed call none that never existed remains, and only an operator that cannot be asked is an error. |
| ReconcileResources.Cluster.Get | interoperator/internal/resources/resources.go:124 | A read shows the stored object; "not found" is true. |
| ReconcileResources.Cluster.Create | interoperator/internal/resources/resources.go:127 | Creation succeeds only where there is no object, and otherwise touches only its own one. |
| ReconcileResources.Cluster.Update | interoperator/internal/resources/resources.go:148-152 | An update replaces the content of its object or, on an error, possibly nothing. |
| ReconcileResources.Cluster.Delete | interoperator/internal/resources/helper.go:134 | A delete removes its object, or marks it while finalizers hold it. |
| CollectDependencies.CollectFromRoot | broker/bin/collect-all-dependencies.js:38-73 | The script ends normally if and only if every reachable module is in the lock file and no dependency is listed at two versions, and then with exactly the dependencies listed by the root or a reachable module. |
| CollectDependencies.Collector.CollectAllDeps | broker/bin/collect-all-dependencies.js:38-71 | One call returns what the root or the modules it was first to visit list; it ends on cyclic graphs, and reports only true inconsistencies. |
| CollectDependencies.Collector.constructor | broker/bin/collect-all-dependencies.js:21 | Nothing is visited at first. |
| CollectDependencies.Merge | broker/bin/collect-all-dependencies.js:47-58 | Two results are united, or a dependency with two versions is reported. |
| CollectDependencies.ClosureIsUnique | broker/bin/collect-all-dependencies.js:38-73 | The result is determined by the graph, so no iteration order shows. |
| CollectDependencies.ClosedContainsChains | broker/bin/collect-all-dependencies.js:41-46 | A visited set closed under listing contains every reachable module. |
| CollectDependencies.WorkspaceNames | broker/bin/collect-all-dependencies.js:23-28 | A module belongs to the workspace exactly if its name starts with the three characters @sf. |
| Demux.DemuxChunks | broker/core/utils/src/commonFunctions.js:513-600 | However the bytes are cut into chunks, each stream ends, line by line, as its last `tail` payloads in order, under a notice with the true total exactly when payloads were dropped. |
| Demux.DemuxFrames | broker/core/utils/src/commonFunctions.js:513-600 | For every list of non-empty frames that holds, line by line, of exactly the payloads sent. |
| Demux.Demuxer.constructor | broker/core/utils/src/commonFunctions.js:514-533 | The parser starts empty. |
| Demux.Demuxer.ReadFrame | broker/core/utils/src/commonFunctions.js:535-547 | Yields the next frame if it has arrived whole; otherwise no frame is complete and nothing is lost, even with the header read already. |
| Demux.Demuxer.OnFrame | broker/core/utils/src/commonFunctions.js:551-560 | After every frame the window holds the last payloads of the stream, twice as many as will be shown, and the true count. |
| Demux.Demuxer.TakeRight | broker/core/utils/src/commonFunctions.js:520-527 | Cuts both streams to their last entries. |
| Demux.Demuxer.OnReadable | broker/core/utils/src/commonFunctions.js:549-564 | All complete frames are consumed, and no byte is lost. |
| Demux.Demuxer.Arrive | broker/core/utils/src/commonFunctions.js:598 | Parsing goes on wherever the previous bytes stopped. |
| Demux.Demuxer.OnEnd | broker/core/utils/src/commonFunctions.js:582-592 | Delivers both streams as the whole input determines them. |
| Demux.Demuxer.Read | broker/core/utils/src/commonFunctions.js:537-543 | Reads exactly that many bytes or none. |
| Demux.SplitResumes | broker/core/utils/src/commonFunctions.js:535-547 | Parsing may stop anywhere and resume with what was left over. |
| Demux.SplitEncoded | broker/core/utils/src/commonFunctions.js:535-556 | Parsing encoded frames gives back exactly those frames. |
| Demux.EncodedBytes | broker/core/utils/src/commonFunctions.js:535-552 | A frame on the wire is its kind, three zeros, the length with the most significant byte first, and the payload. |
| Demux.PayloadsInOrder | broker/core/utils/src/commonFunctions.js:549-564 | Every frame of kind 2 is in the error stream and every other one in the output stream, after the earlier ones of its stream. |
| Demux.PayloadsAreFrames | broker/core/utils/src/commonFunctions.js:549-564 | The two streams hold nothing else. |
| Demux.WriteUInt32BE | broker/core/utils/src/commonFunctions.js:542 | Writing and reading a 32-bit length is a round trip. |
| Demux.WindowKeepsLast | broker/core/utils/src/commonFunctions.js:560 | Cutting the window after every frame keeps what cutting once would keep. |
| Demux.FinalCutKeepsLast | broker/core/utils/src/commonFunctions.js:583 | The wide window holds at most twice as many payloads as will be shown, and everything the final cut keeps. |
| BackupFiles.FilenameRoundTrip | broker/data-access-layer/iaas/src/BackupStore.js:327-373 | For both key tables, parsing the printed name gives back every field, the start time as its ISO date, except under the excluded root where it stays as printed. |
| BackupFiles.TimestampRoundTrip | broker/data-access-layer/iaas/src/BackupStore.js:379-403 | The time in a file name is a valid one and reads back as the ISO date of the same instant. |
| BackupFiles.TimestampFields | broker/data-access-layer/iaas/src/BackupStore.js:391-403 | The printed time reads as year, month, day, hour, minute and second of the instant in their places. |
| BackupFiles.FieldsNameInstant | broker/data-access-layer/iaas/src/BackupStore.js:391-403 | Those fields name the instant back to the second, by the lengths of the months and the rule of leap years, and the day exists in its month. |
| BackupFiles.NamesAre | broker/data-access-layer/iaas/src/BackupStore.js:354-373 | The name is the root, the operation, and the fields of the key table between dots, before the extension. |
| BackupFiles.ValidExactly | broker/data-access-layer/iaas/src/BackupStore.js:379-381 | The times admitted in a name are those of months 1 to 12, days 1 to 31, hours 0 to 24, and minutes and seconds below 60. |
| BackupFiles.OtherNames | broker/data-access-layer/iaas/src/BackupStore.js:327-352 | A name without two folders yields no operation, and one of an operation without a key table no field. |
| BackupFiles.PrintedOrder | broker/data-access-layer/iaas/src/BackupStore.js:391-403 | For all instants of the years 0 to 9999 the printed forms compare as strings exactly as the instants compare to the second. |
| BackupFiles.MixedOrder | broker/data-access-layer/iaas/src/BackupStore.js:343-403 | Times printed with either separator compare by the hour, then by the separator, and then by the second. |
| BackupFiles.NewestIsLast | broker/data-access-layer/iaas/src/BackupStoreForServiceInstance.js:75-82 | In every non-empty listing the last file after sorting belongs to a backup with the greatest start second if and only if no file under the excluded root is eclipsed: in the last hour, with others outside that root in the same hour, all earlier. |
| BackupFiles.OneTenantEclipsesNone | broker/data-access-layer/iaas/src/BackupStoreForServiceInstance.js:58-76 | In a listing of one tenant, as the newest backup is taken from, none is eclipsed, so the last file is the newest. |
| BackupFiles.SortKeeps | broker/data-access-layer/iaas/src/BackupStore.js:73-80 | Sorting keeps every file. |
| BackupFiles.SortIsStable | broker/data-access-layer/iaas/src/BackupStore.js:73-80 | Sorting leaves files of one start time in the order in which they were listed. |
| BackupFiles.SortInOrder | broker/data-access-layer/iaas/src/BackupStore.js:73-80 | Sorting by the printed start orders the files by hour, root and second. |
| BackupFiles.CivilOrder | broker/data-access-layer/iaas/src/BackupStore.js:391-403 | Date and hour are in the order of the hours of the instants, minute and second in that of the rest. |
| BackupFiles.CivilRanges | broker/data-access-layer/iaas/src/BackupStore.js:391-403 | Every printed field has its usual range, the year four digits. |
| BackupFiles.EpochIs1970 | broker/data-access-layer/iaas/src/BackupStore.js:391-394 | The calendar counts from the start of 1970. |
| NetworkIndex.NameRoundTrip | broker/core/provisioner-services/src/DirectorService.js:92-95 | Printing and parsing a deployment name is a round trip exactly for the indices 0 to 9999; any other name is not parsed. |
| NetworkIndex.ParsesExactlyNames | broker/core/utils/src/commonFunctions.js:346-349 | A name is parsed if and only if it is the printed name of an index of four digits and a guid, and then to those. |
| NetworkIndex.NameReads | broker/core/provisioner-services/src/DirectorService.js:92-95 | A name is the prefix, the subnet, four digits that read as the index, and the guid. |
| NetworkIndex.GuidsAre | broker/core/utils/src/commonFunctions.js:346-349 | A guid is hexadecimal in groups of 8, 4, 4, 4 and 12 digits. |
| NetworkIndex.NameHasOneSubnet | broker/core/utils/src/commonFunctions.js:346-349 | No name belongs to two subnets. |
| Decimals.DecimalLength | broker/data-access-layer/bosh/src/NetworkSegmentIndex.js:49-50 | A given number of digits suffices exactly for the numbers below that power of ten, so four do up to the upper bound. |
| Decimals.ParsePad | broker/core/provisioner-services/src/BaseDirectorService.js:35-41 | A padded number reads back as that number. |
| Decimals.PadParsed | broker/core/provisioner-services/src/BaseDirectorService.js:35-41 | Whatever digits a name carries, they are the padded form of the number they are read as. |
| Decimals.PadIsPaddedDecimal | broker/data-access-layer/bosh/src/NetworkSegmentIndex.js:16-18 | Filling up the decimal form with zeros gives the fixed-width form of every number that fits. |
| NetworkIndex.GetUsedIndices | broker/data-access-layer/bosh/src/NetworkSegmentIndex.js:36-46 | An index is used exactly if some name of the subnet carries it. |
| NetworkIndex.GetFreeIndices | broker/data-access-layer/bosh/src/NetworkSegmentIndex.js:24-34 | The free indices are exactly those below the capacity that are not used. |
| NetworkIndex.CalculateCapacity | broker/data-access-layer/bosh/src/NetworkSegmentIndex.js:55-76 | The capacity is the configured one or what the smallest subnet leaves, capped at 10000. |
| NetworkIndex.Director.AcquireNetworkSegmentIndex | broker/core/provisioner-services/src/DirectorService.js:183-205 | Creation is refused if and only if the name of an instance that exists, or is to come while requests are rate limited, ends with the guid; otherwise the index is one that no such deployment carries, unless all are carried. |
| NetworkIndex.Director.CreateDeployment | broker/core/provisioner-services/src/DirectorService.js:139-155 | Serialized creates keep the indices of every subnet pairwise distinct and all instances different, and the new name parses back to its index. |
| NetworkIndex.Director.DeleteDeployment | broker/core/provisioner-services/src/DirectorService.js:626-643 | Deployments that go away keep that property. |
| Retry.RetryOperation.constructor | broker/core/utils/src/RetryOperation.js:31-34 | The first attempt is due at once. |
| Retry.RetryOperation.CallOnce | broker/core/utils/src/RetryOperation.js:37-43 | A due attempt calls the function once and extends the run by exactly that attempt. |
| Retry.RetryOperation.AttemptOnce | broker/core/utils/src/RetryOperation.js:36-57 | From any attempt on, the rest of the run follows the rules and stops with the outcome they demand. |
| Retry.RetryCalls | broker/core/utils/src/RetryOperation.js:31-59 | Every attempt but the last failed retryably within the attempts and the timeout and was followed as soon as its backoff allowed; the last one had to be the last. |
| Retry.RunIsDetermined | broker/core/utils/src/RetryOperation.js:31-59 | Those rules determine the whole run and its outcome. |
| Retry.OutcomeTells | broker/core/utils/src/RetryOperation.js:36-57 | The outcome is a success, a refusal, the number of attempts or the time that was up, exactly as the last attempt went. |
| Retry.RetriesTell | broker/core/utils/src/RetryOperation.js:36-57 | Every attempt before the last failed retryably with attempts left, and the next one started when its backoff was over, or at once if it took longer, before the timeout. |
| Retry.CallsAreMade | broker/core/utils/src/RetryOperation.js:31-59 | Without a timeout a function that keeps failing is called as often as allowed, and one that succeeds in time until it does. |
| Retry.AttemptsAreBounded | broker/core/utils/src/RetryOperation.js:46-51 | At most `maxAttempts` attempts (but one in any case), and no retry at or after the timeout. |
| Retry.StartsAreSpaced | broker/core/utils/src/RetryOperation.js:24-29 | Retry k starts no earlier than the sum of the first k backoffs, and exactly then if and only if no attempt outlasted its backoff. |
| Retry.BackoffIsGeometric | broker/core/utils/src/RetryOperation.js:24-29 | Without a cap the total backoff is the geometric sum. |
| Retry.BackoffIsCapped | broker/core/utils/src/RetryOperation.js:24-29 | The backoff grows by the factor with every try until it reaches the cap. |
| Retry.DefaultSpan | broker/core/utils/src/RetryOperation.js:10-16 | Under the defaults the last of ten short attempts starts 1174 * 511 ms after the first. |
| EventQueue.Conservation | broker/data-access-layer/event-logger/src/EventLogRiemannClient.js:13-218 | In every run each submitted event is exactly one of sent on the connection, queued, dropped as the oldest of a full queue, and given up, the last exactly when two sends of it failed and it is none of the others; none is sent more than twice, nor again after a success. |
| EventQueue.QueueIsBounded | broker/data-access-layer/event-logger/src/EventLogRiemannClient.js:187-198 | In every run at most 100 events are queued, each once, and whatever was dropped was the oldest of a queue of 100. |
| EventQueue.BooksBalance | broker/data-access-layer/event-logger/src/EventLogRiemannClient.js:13-218 | In every run the number of submissions equals the events sent, dropped and given up and the length of the queue. |
| EventQueue.SubmittedAreCounted | broker/data-access-layer/event-logger/src/EventLogRiemannClient.js:125-146 | Only submissions submit events. |
| EventQueue.DrainInOrder | broker/data-access-layer/event-logger/src/EventLogRiemannClient.js:208-218 | Draining ends; it hands over or gives up the queued events in order, all of them while the connection holds, and otherwise up to the one whose send failed, which goes last. |
| EventQueue.SubmissionAnswers | broker/data-access-layer/event-logger/src/EventLogRiemannClient.js:125-198 | A new event is sent on a connection; if that fails, or without a connection, it waits at the end of the queue, and a connection is set up unless that is under way. |
| EventQueue.EventsAreSent | broker/data-access-layer/event-logger/src/EventLogRiemannClient.js:13-218 | Where nothing throws, every submitted event is sent once a connection is there, but for those that a full queue dropped before. |
| EventQueue.LossStopsSending | broker/data-access-layer/event-logger/src/EventLogRiemannClient.js:41-50 | After an error of the connection nothing is sent until there is a connection again. |
| EventQueue.RunKeeps | broker/data-access-layer/event-logger/src/EventLogRiemannClient.js:13-218 | Every run keeps the invariant that ties queue and attempts to what was handed to the connection, dropped and given up. |
| EventQueue.SendKeeps | broker/data-access-layer/event-logger/src/EventLogRiemannClient.js:148-185 | Whatever becomes of an event in hand keeps that invariant. |
| EventQueue.DropKeeps | broker/data-access-layer/event-logger/src/EventLogRiemannClient.js:188-192 | Dropping the oldest event of a full queue keeps it. |
| EventQueue.RunClient | broker/data-access-layer/event-logger/src/EventLogRiemannClient.js:13-218 | The client goes through exactly the states of the run, whatever sends and connects fail. |
| EventQueue.RiemannClient.constructor | broker/data-access-layer/event-logger/src/EventLogRiemannClient.js:13-22 | The client starts empty and sets up its connection. |
| EventQueue.RiemannClient.Initialize | broker/data-access-layer/event-logger/src/EventLogRiemannClient.js:24-60 | The client waits for the connection, or has none if setting it up throws. |
| EventQueue.RiemannClient.Disconnect | broker/data-access-layer/event-logger/src/EventLogRiemannClient.js:62-70 | The connection is given up. |
| EventQueue.RiemannClient.EnqueueRequest | broker/data-access-layer/event-logger/src/EventLogRiemannClient.js:187-198 | The request is appended, and a full queue drops its oldest one. |
| EventQueue.RiemannClient.DequeueRequest | broker/data-access-layer/event-logger/src/EventLogRiemannClient.js:200-202 | The oldest request is taken. |
| EventQueue.RiemannClient.Hand | broker/data-access-layer/event-logger/src/EventLogRiemannClient.js:160-168 | A call of the connection is traced with its outcome. |
| EventQueue.RiemannClient.SendEvent | broker/data-access-layer/event-logger/src/EventLogRiemannClient.js:148-185 | An event is sent, queued with its attempts counted, or given up after two; the result says whether draining goes on. |
| EventQueue.RiemannClient.LogEvent | broker/data-access-layer/event-logger/src/EventLogRiemannClient.js:125-146 | A new event is sent, or queued last. |
| EventQueue.RiemannClient.ProcessOutstandingRequest | broker/data-access-layer/event-logger/src/EventLogRiemannClient.js:208-218 | The loop drains the queue as specified. |
| EventQueue.RiemannClient.OnConnect | broker/data-access-layer/event-logger/src/EventLogRiemannClient.js:32-40 | The connection is noted and the queue drained. |
| EventQueue.RiemannClient.OnError | broker/data-access-layer/event-logger/src/EventLogRiemannClient.js:41-50 | An error loses the connection and no event. |
| DirectorCache.BoshDirectorClient.PopulateConfigCache | broker/data-access-layer/bosh/src/BoshDirectorClient.js:142-159 | In whatever order the listings arrive, a deployment is mapped to the first director that lists it if all that do share a name, to the duplicate marker if two names do, and to nothing if nobody does. |
| DirectorCache.BoshDirectorClient.UpdateCache | broker/data-access-layer/bosh/src/BoshDirectorClient.js:200-204 | One more listing brings the cache up to what the listings so far amount to. |
| DirectorCache.BoshDirectorClient.UpdateConfigCacheEntry | broker/data-access-layer/bosh/src/BoshDirectorClient.js:206-213 | Only the entry of the deployment changes: new, kept for the same name, or marked. |
| DirectorCache.BoshDirectorClient.PopulateConfigCacheEntry | broker/data-access-layer/bosh/src/BoshDirectorClient.js:161-176 | The entry of one deployment becomes what the listings amount to, and no other changes. |
| DirectorCache.BoshDirectorClient.GetDirectorConfigFromCache | broker/data-access-layer/bosh/src/BoshDirectorClient.js:219-230 | The answer is the director of the entry, a conflict for the duplicate marker, and for a miss an error or nothing as asked; it is right for some listers exactly if the entry is. |
| DirectorCache.BoshDirectorClient.GetDirectorConfig | broker/data-access-layer/bosh/src/BoshDirectorClient.js:232-249 | Through the cache or after asking all directors, the answer is right if and only if names tell the directors that list the deployment apart; uniquely named directors always do. |
| DirectorCache.SeenIsVerdict | broker/data-access-layer/bosh/src/BoshDirectorClient.js:206-213 | Updating an entry with one more director amounts to one more arrival. |
| DirectorCache.EntryReads | broker/data-access-layer/bosh/src/BoshDirectorClient.js:142-176 | An entry is missing if nobody lists the deployment, the duplicate marker if two that do differ in name, and otherwise the director whose listing arrived first. |
| DirectorCache.VerdictAgrees | broker/data-access-layer/bosh/src/BoshDirectorClient.js:206-213 | An entry names exactly one, several or no directors rightly if and only if there is at most one or two names show. |
| DirectorCache.EntryAgrees | broker/data-access-layer/bosh/src/BoshDirectorClient.js:142-159 | For any listings in any order the entry of a deployment is right if and only if at most one director lists it or two that do differ in name. |
| DirectorCache.OrderShowsExactly | broker/data-access-layer/bosh/src/BoshDirectorClient.js:142-159 | For any listings, all orders of arrival give the same entry if and only if that condition holds. |
| DirectorCache.NamedAreToldApart | broker/data-access-layer/bosh/src/BoshDirectorClient.js:142-159 | Uniquely named directors meet the condition for every deployment. |

## Left out

- Calls to HTTP, Kubernetes, BOSH, cloud storage and Docker clients, routing, logging, metrics and configuration loading: only what the API server promises is modelled, in `VersionedStore`.
- Rendering of templates, generated copy code, version comparison, quota checks, cron hour lists: easy or not shown.
- Locks: the lock type and `checkWriteLockStatus`, which do not decide who is granted a lock; deletion of lock objects, which nothing in the broker does; what others do in the wait between the attempts of one unlock, which `LockRuns` covers as separate unlocks.
- Locks: that the poller releases only after the operation really ended; the polled resource may still show an earlier final state, so the code does not decide it.
- LockRuns.LockIdsIncrease: rests on a store that gives every accepted patch a new version. An API server leaves the version of a patch that changes nothing, so taking over an expired lock with the very options that it holds, lock time included, would return the old lock id.
- Processing lock: `continueToHoldLock`, deletion of a resource under processing, and writes of others that change the annotations, which the protocol forbids.
- Status pollers: the map of running intervals, and what `getStatus` does; only the lease is modelled.
- InstanceReplicator.ReconcilingKeeps: does not model that the target namespace is deleted while the instance and the namespace in the master are being deleted, which can remove the replica with it; nor the target cluster check, the creation of the namespace, and the copying of the service and the plan, which do not touch the instance.
- Replication: stale informer caches, concurrent reconciles of one instance, and a second broker request while one is outstanding; the provisioner is an environment that stamps the last operation and moves the replica from request to in progress to a final state.
- Replication: the labels other than the last operation and the annotations, copied along with the spec, which the request number stands for.
- DeepUpdates.DeepUpdate: does not model that the Go code writes into the current map and slice in place, so aliasing between the two documents is not captured; the values are trees, and the result is compared with the old tree.
- ReconcileResources.ReconcileResources: identities that differ only in the API version are separate objects, whereas a cluster may serve one object under several versions of a group, so that sweeping an old version can remove an object just provisioned under a new one. The identity fields are kept apart from the content of an object, so an update that rewrites its own name is not modelled; versions of objects appear only as conflicts.
- CollectDependencies.CollectFromRoot: the prefix search in the lock file is a partial function from module names, and JavaScript property quirks of the names are not modelled.
- Demux.DemuxChunks: a frame that announces no payload stops the parser as reading zero bytes does; what is left when the stream ends inside a frame, the destruction of the stream after two seconds and the layout of the notice are not modelled.
- BackupFiles.FilenameRoundTrip: tenants that path joining would rewrite (empty, dots, slashes) and fields with dots or slashes are outside, as printing is not injective there; a missing start time, which prints the current time, too.
- BackupFiles.NewestIsLast: prefixes, predicates and the paging of the listing only choose which files are listed; the list is a parameter.
- BackupFiles: years outside 0 to 9999, which print with a sign and more digits.
- NetworkIndex.ParseName: takes the subnet literally, where the code would read special characters of it as a pattern.
- NetworkIndex.Director.CreateDeployment: creates are serialized; the names cached while requests are rate limited are a parameter.
- NetworkIndex.CalculateCapacity: the subnet sizes are parameters, and a network without subnets under a negative segment size is outside.
- Retry.RetryCalls: timers are exact and the clock is not set back; the classes of errors are reduced to whether the predicate retries them.
- EventQueue.RunClient: events are numbers in the order of submission; their content and the filter by status code are not modelled, nor errors thrown by the client's own callbacks inside a send.
- DirectorCache.BoshDirectorClient.GetDirectorConfig: waiting for a load in progress, a failed listing, overlapping loads and the retry after a deployment was not found are not modelled.
