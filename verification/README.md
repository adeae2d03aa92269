# Instana agent operator: a verified model

The Instana agent operator turns an agent resource into Kubernetes objects and takes them away again. It
keeps a write-ahead log of what it creates in a ConfigMap, `<cr>-dependents`: every entry maps a key
`version_generation` to the identities of the objects applied under it. `ApplyAll` runs a dry run, records,
applies, and cleans up what older entries list. `DeleteAll` cleans up with an empty current set. The
controller puts the V3 finalizer on the resource before anything is applied and takes it off only after
`DeleteAll` reported success.

The model proves what this protocol is for, over runs of any length with errors, crashes, conflicts, stale
reads and other writers at any call, and then three things that are built on top of it: what the reconciles
do to the environment of the DaemonSet and the sensor, how the generated objects refer to each other, and the
host name of the remote agent.

## Layout

| file | content |
|---|---|
| `Wrappers.dfy` | `Option` |
| `Text.dfy` | string order, sorting, `strings.Join` / `strings.Split`, decimal numbers |
| `Identity.dfy` | object identities and `diff.Diff` |
| `Protocol.dfy` | the protocol as a step machine, its invariant, safety and cause over whole runs |
| `Cluster.dfy` | the API server as a class: every call, what may go wrong in it, the trace of steps |
| `Client.dfy` | deleting objects and waiting for their absence |
| `Lifecycle.dfy` | retry, recording, clean-up |
| `Operator.dfy` | `ApplyAll`, `DeleteAll`, convergence, idempotence |
| `Controller.dfy` | the reconcile, finalizers, progress, recovery |
| `DaemonSet.dfy` | canonical environment, sticky persist-ID variable over runs |
| `Etcd.dfy` | ETCD discovery, comparison, feedback over runs |
| `Backends.dfy` | sensor Deployments against ConfigMap and keys Secret |
| `Remote.dfy` | remote keys Secret against its volume; host names |

`dafny verify dfyconfig.toml` checks the whole project.

## How the protocol is modelled

`Protocol.World` is what the API server stores: the live objects, the ConfigMap with its resource version and
the custom resource, together with the resource as the current reconcile read it. `Protocol.Step` lists the
moves: one API call of the operator each, or one move of everybody else (`Environment`). The guards in `Step` and
`Allowed` say what must be known, and what must have happened, before a call; no operation is assumed to
respect them. `Cluster.ApiServer` holds the state, and every operation of the operator is an imperative method
over it, in the order of the source. Each call consumes one event of an arbitrary tape, which says how the
environment moved before the call and whether the call succeeds, is contended, fails, takes effect and loses its
answer, reads stale data, leaves the deleted object terminating, takes time, or is the last one before a crash.
Reads of the ConfigMap, answers that report a conflict, and calls with an effect add their step to a trace that
`Valid()` keeps a run of the protocol, so a method that broke a guard would not verify. An empty tape means that
nothing interferes (`AtPeace`); convergence and progress are stated there. What a call or an operation leaves is
a predicate over the server's state before and after (`HasApplied`, `HasRetried`, `HasAppliedAll`, ...), and the
longer proofs are lemmas about these.

### Exceptions, and what causes them

The results name three exceptions, each of them part of the state and each with a cause that is proved.

- `unrecorded`: the generations whose last update used up its attempts. Only objects of these generations may be
  live without a record. It takes a conflict answered in each of five attempts, and at least five events of the
  tape; a later update of the same generation that succeeds ends it (`UnrecordedHasCause`, `Grows`).
- `uncleaned`: the last clean-up of everything used up its attempts, in the same sense (`UncleanedHasCause`). It
  starts afresh with every `DeleteAll`.
- `tampered`: somebody else changed an entry under one of the operator's keys (`TamperedHasCause`).

That the first two cannot be done without is shown by the code itself, for all inputs: see the clauses on
contention in `HasAppliedAll` and `Reconcile`, and the instances `SilentGiveUp` and `SilentLeak`.

### Assumptions

- The objects built are a function of operator version and generation (`Setting.built`). `ChangingSetOrphans`
  shows what happens otherwise and `UpdateLosesIff` states exactly when.
- Every object keeps one API version across records, whoever writes them. `DiffSparesNewIff` shows that sparing
  the current set needs exactly this.
- Server-side apply is compare-and-swap if the object carries a resource version and refuses an object without
  a name. A lost answer of an apply is never a conflict.
- An error of a read, or of the patch of the custom resource, never poses as NotFound, and reads of the custom
  resource are accurate. Reads of the ConfigMap may be stale.
- One worker reconciles a resource; nobody else adds or removes V3.
- Others may rewrite any entry of the ConfigMap at any time, under a new resource version. They do not create it,
  nor remove it while the resource exists. They may remove dependents, not create them.
- A record decodes to what was encoded, and every entry decodes.
- Time passes only by sleeping and by the delays on the tape. Durations are natural numbers of milliseconds.
- Undisturbed means also that a deleted object is gone at the next read and that discovery, the dry run and
  the Helm uninstall succeed.

### Where the code and its intent differ

- `retry` shadows its error variable, so using up all attempts returns no error
  (pkg/k8s/operator/lifecycle/dependent_lifecycle_manager.go:173-186). The model does the same. `Retry` says
  exactly when the last error is reported. If the update of an `ApplyAll` meets nothing but conflicts, the objects
  are applied all the same, the clean-up drops the older records, and no error is reported: for every state with a
  ConfigMap (`HasAppliedAll`). If every delete and store of a deletion is refused, V3 goes and every object stays:
  for every resource under deletion (`Reconcile`).
- "ETCD targets unchanged" is meant to leave the Deployment alone, but the missing context makes the builder
  omit ETCD_TARGETS (controllers/apply.go:506-512). `KeepsTargetsIff` states exactly when the variable survives,
  and `Alternates` what follows for every run.
- With `useSecretMounts` unset the sensor's volume and arguments treat it as true, the agent's keys Secret as
  false. `Wired` gives the exact condition under which the key file resolves. Defaulting sets the field, so the
  difference shows only before it.
- Any error of the Deployment read counts as a missing Deployment (controllers/apply.go:504-505).
- `DeleteAll` fails for ever if the ConfigMap was never created; `Settled` has that case, and
  `NoRecordsMeansClean` shows that nothing is live in it.

## Model

| member | source | states |
|---|---|---|
| `Identity.Contains` | pkg/collections/list/contains.go:38-46 | found if and only if the list holds a deeply equal element |
| `Identity.Diff` | pkg/collections/list/diff.go:11-23 | the elements of the old list that the new one lacks, in order and with repetitions |
| `Identity.DiffSparesNewIff` | pkg/collections/list/diff.go:11-23 | the difference names no object of the new list if and only if no object of both lists changed its API version |
| `Protocol.GenKeyInjective` | pkg/k8s/operator/lifecycle/dependent_lifecycle_manager.go:210-212 | equal keys come from the same version and the same generation, whatever characters the version holds |
| `Protocol.GenKeyNotDirty` | pkg/k8s/operator/lifecycle/dependent_lifecycle_manager.go:73-75 | a generation key is never a dirty slot, its own or another one |
| `Protocol.UpdateKeepsCoverage` | pkg/k8s/operator/lifecycle/dependent_lifecycle_manager.go:73-79 | an update never takes an object off the record when the built set is a function of the key, although it overwrites the dirty slot |
| `Protocol.UpdateInScope` | pkg/k8s/operator/lifecycle/dependent_lifecycle_manager.go:73-79 | after an update every entry, the dirty one included, still lists only what its own generation builds |
| `Protocol.TrimKeepsCoverage` | pkg/k8s/operator/lifecycle/dependent_lifecycle_manager.go:125-145 | a live object stays on record when a clean-up drops entries |
| `Protocol.StepKeepsInv` | pkg/k8s/operator/operator_utils/operator_utils.go:65-85 | no orphan, deletion safety and well-formed records are kept by every API call of the operator and every move of the environment |
| `Protocol.RunIsSafe` | pkg/k8s/operator/operator_utils/operator_utils.go:65-85 | in every state of every run each live object is on record, and holds the resource with V3 in place, but for objects of a generation whose own update gave up and not yet succeeded, after a deletion that gave up, and after tampering |
| `Protocol.GoneMeansClean` | controllers/cleanup.go:52-94 | once the resource is gone no applied object is left, but for the same three exceptions |
| `Protocol.NoRecordsMeansClean` | controllers/cleanup.go:52-70 | in every run a resource whose ConfigMap does not exist has no live object, but for unrecorded generations and tampering, so a deletion stuck for want of it leaves nothing behind |
| `Protocol.WriteAhead` | controllers/instanaagent_controller.go:162-215 | in every run an apply happens only under V3, for a resource read without a deletion mark, and for an object that is on record or of an unrecorded generation; a delete spares the current set; a dropped entry has nothing live outside it; nothing but an apply brings objects to life |
| `Protocol.FailedMeansRefused` | pkg/k8s/operator/lifecycle/dependent_lifecycle_manager.go:171-187 | in every run the attempts counted as failed stand for as many conflicts answered, in order, since the operation began |
| `Protocol.GiveUpTakesConflicts` | pkg/k8s/operator/lifecycle/dependent_lifecycle_manager.go:171-187 | in every run, where an operation is given up, a conflict was answered in each of its five attempts before |
| `Protocol.UnrecordedHasCause` | pkg/k8s/operator/lifecycle/dependent_lifecycle_manager.go:64-107 | in every run a generation counts as unrecorded only after its update was given up so, and only while no update of it has been stored since |
| `Protocol.UncleanedHasCause` | pkg/k8s/operator/lifecycle/dependent_lifecycle_manager.go:117-168 | in every run everything counts as uncleaned only after a clean-up of everything was given up so |
| `Protocol.TamperedHasCause` | pkg/k8s/operator/lifecycle/dependent_lifecycle_manager.go:64-98 | in every run records count as tampered with only after somebody else changed an entry under an operator's key |
| `Protocol.UnchangedSince` | pkg/k8s/client/client.go:121-136 | a version that was read and is still found, with no write of the operator in between, was there all the time, whatever others did |
| `Protocol.NoLostUpdate` | pkg/k8s/operator/lifecycle/dependent_lifecycle_manager.go:64-98 | with others writing any key at any time, every write of update and clean-up goes back to a read of its own, the ConfigMap did not change from that read to the write, and the write changes exactly the entries its intent names among those that were read |
| `Protocol.UpdateLosesIff` | pkg/k8s/operator/lifecycle/dependent_lifecycle_manager.go:73-79 | for any built set at all, an update loses an object if and only if it was on record only in the dirty slot being overwritten and is not built again |
| `Protocol.ChangingSetOrphans` | pkg/k8s/operator/lifecycle/dependent_lifecycle_manager.go:73-79 | three different sets under one key leave the first one's object off the record |
| `Cluster.ApiServer.ApplyConfigMap` | pkg/k8s/client/client.go:121-136 | success replaces exactly the version that was read; a conflict changes nothing; a nameless object is refused |
| `Cluster.ApiServer.ApplyObject` | pkg/k8s/client/client.go:121-136 | at most the given object comes to life; it needs V3, a resource read without mark, and a record |
| `Cluster.ApiServer.PatchFinalizers` | controllers/agent.go:53-79 | replaces the list of finalizers as a whole, as section 2 of RFC 7396 does for arrays; V3 may go only when nothing is left or the last clean-up gave up |
| `Cluster.RemovedSnoc` | controllers/cleanup.go:33-50 | removing a finalizer drops every occurrence of it and leaves the others in their order and number |
| `Client.Exists` | pkg/k8s/client/client.go:82-93 | absence is reported only for an object that is absent, never for a failed check |
| `Client.ObjectsExist` | pkg/k8s/client/client.go:159-180 | one result per object; every absence seen in the sweep still holds at its end |
| `Client.AllDoNotExist` | pkg/k8s/client/helpers.go:33-35 | true if and only if every result is a successful report of absence |
| `Client.VerifyDeletionStep` | pkg/k8s/client/client.go:182-196 | no error means one whole sweep saw every object absent, an error that the deadline was reached; the time spent is exactly the waits between the sweeps and the delays of the calls; while nothing but delays and vanishing objects happens it succeeds if and only if a sweep that starts before the deadline finds every object absent, and then at the first one |
| `Client.VerifyDeletion` | pkg/k8s/client/client.go:198-209 | the same from a context that may be done already; the mutual recursion ends by the clock |
| `Client.SweptAgainInTime` | pkg/k8s/client/client.go:182-209 | seen from after one sweep and one wait, every later sweep comes one sooner, so the condition for success carries over |
| `Client.TapeAdd` | pkg/k8s/client/client.go:182-209 | what passes and vanishes during some calls and then some more adds up |
| `Client.FitsInCeiling` | pkg/k8s/client/client.go:226-242 | sweeps that start before the deadline and `waitTime` apart number at most ⌈timeout / waitTime⌉ |
| `Client.DeleteAll` | pkg/k8s/client/client.go:211-224 | deletes nothing but the listed objects, goes on after errors and ignores NotFound |
| `Client.DeletedMore` | pkg/k8s/client/client.go:211-224 | what one more delete adds to what a sequence of deletes leaves, on every path: nothing else deleted, every conflict noted, none without an event |
| `Client.DeleteAllInTimeLimit` | pkg/k8s/client/client.go:226-242 | at most ⌈timeout / waitTime⌉ sweeps; success only when all objects are absent; an error is one of the deletes or comes after the time limit; objects that linger after their delete are no error if they vanish before a sweep that starts in time |
| `Lifecycle.Retry` | pkg/k8s/operator/lifecycle/dependent_lifecycle_manager.go:171-187 | at most n runs, stops at the first done and returns its verdict, sleeps exactly sleep·(2^(runs−1)−1); the last run's error is returned if and only if some run within the n would be done or the n-th would have no error |
| `Lifecycle.FirstStatusIff` | pkg/k8s/operator/lifecycle/dependent_lifecycle_manager.go:190-204 | the status that decides about a multi-error is the first one that any of its errors has |
| `Lifecycle.ClearedLeavesCurrent` | pkg/k8s/operator/lifecycle/dependent_lifecycle_manager.go:125-143 | when nothing the records list outside the current set is live, nothing at all outside it is |
| `Lifecycle.CostAny` | pkg/k8s/operator/lifecycle/dependent_lifecycle_manager.go:125-137 | the number of deletes a clean-up asks for does not depend on the order of the records |
| `Lifecycle.UpdateAttempted` | pkg/k8s/operator/lifecycle/dependent_lifecycle_manager.go:65-98 | a read followed by an apply of the update is an attempt as `Attempted` describes it: what is written or kept, what a conflict notes, what happens undisturbed and contended |
| `Lifecycle.CleanupKeeps` | pkg/k8s/operator/lifecycle/dependent_lifecycle_manager.go:117-159 | whatever fails in an attempt of a clean-up, the current set is spared and stays on record, and every conflict is noted |
| `Lifecycle.DependentLifecycleManager.GetOrInitialize` | pkg/k8s/operator/lifecycle/dependent_lifecycle_manager.go:214-241 | a fresh ConfigMap only when there is none; otherwise the version read, or one without a name |
| `Lifecycle.DependentLifecycleManager.UpdateAttempt` | pkg/k8s/operator/lifecycle/dependent_lifecycle_manager.go:65-98 | success replaces exactly the version its own read has found; done without error means the dependents are on record; not done means a conflict and nothing written |
| `Lifecycle.DependentLifecycleManager.UpdateDependentLifecycleInfo` | pkg/k8s/operator/lifecycle/dependent_lifecycle_manager.go:59-107 | no error means recorded, or given up and unrecorded; it deletes nothing; undisturbed it changes exactly the current entry and its dirty slot; five contended attempts give up |
| `Lifecycle.DependentLifecycleManager.DeleteDeprecated` | pkg/k8s/operator/lifecycle/dependent_lifecycle_manager.go:125-143 | for every iteration order and on every error path no object of the current set is deleted, and an entry is dropped only when its other objects are gone; the current key stays |
| `Lifecycle.DependentLifecycleManager.DeleteRecord` | pkg/k8s/operator/lifecycle/dependent_lifecycle_manager.go:126-137 | deletes none of the current set; no error means the entry's other objects are gone |
| `Lifecycle.DependentLifecycleManager.CleanupAttempt` | pkg/k8s/operator/lifecycle/dependent_lifecycle_manager.go:117-159 | when it writes, it replaces exactly the version its own read has found and drops nothing but entries of that version; no error means nothing outside the current set is live; only a conflict asks for another attempt |
| `Lifecycle.DependentLifecycleManager.RetryOperation` | pkg/k8s/operator/lifecycle/dependent_lifecycle_manager.go:171-187 | around an update or a clean-up: at most five attempts, the first that is done decides, the pauses double; giving up takes a conflict and an event in each attempt, reports no error and marks the generation unrecorded or everything uncleaned; contention throughout does make it give up |
| `Lifecycle.DependentLifecycleManager.CleanupDependents` | pkg/k8s/operator/lifecycle/dependent_lifecycle_manager.go:112-168 | over all attempts no object of the current set is deleted, and no error means that nothing else is live, or given up; undisturbed only the current entry remains; without a ConfigMap it fails and changes nothing; five contended attempts give up |
| `Operator.OperatorUtils.ApplyObjects` | pkg/k8s/operator/operator_utils/operator_utils.go:106-114 | one apply for each object, in order; no error if and only if every one came through, and then exactly these objects were applied; every object is on record while it is applied, nothing is deleted and no record dropped |
| `Operator.OperatorUtils.DryRunAll` | pkg/k8s/operator/operator_utils/operator_utils.go:65-68 | changes nothing; no error if and only if every one of its calls comes through |
| `Operator.AppliedAll` | pkg/k8s/operator/operator_utils/operator_utils.go:65-81 | recording, applying and cleaning up compose to what `HasAppliedAll` states of every path |
| `Operator.OperatorUtils.ApplyAll` | pkg/k8s/operator/operator_utils/operator_utils.go:65-81 | a stage that fails is the last: after a failed dry run nothing was changed, after failed recording nothing applied, and after a failed apply nothing deleted and no record dropped; success means that exactly the given objects were applied, each with success, and leaves no other object live unless the clean-up gave up; on every path it deletes none of the given objects and its generation becomes unrecorded only if the update gave up; undisturbed, from any state without orphans, exactly the given objects are live and exactly their entry is stored; an update that meets conflicts only is not reported, whatever the state |
| `Operator.OperatorUtils.DeleteAll` | pkg/k8s/operator/operator_utils/operator_utils.go:83-85 | success means nothing is live or the attempts ran out, which is exactly when everything is uncleaned; undisturbed it succeeds if and only if the ConfigMap exists; contended throughout it succeeds with nothing deleted |
| `Operator.ApplyTwice` | pkg/k8s/operator/operator_utils/operator_utils.go:65-81 | a second undisturbed apply gives the same objects, the same records and the same resource |
| `Operator.SilentGiveUp` | pkg/k8s/operator/lifecycle/dependent_lifecycle_manager.go:171-187 | an `ApplyAll` whose update meets five conflicts reports no error, and leaves the object live and on no record, the older record being dropped |
| `Controller.InstanaAgentReconciler.GetAgent` | controllers/agent.go:32-51 | a missing resource ends the reconcile successfully and any other error in failure; otherwise V3 is in place exactly if it was read |
| `Controller.InstanaAgentReconciler.UpdateAgent` | controllers/agent.go:53-79 | always ends the reconcile: with a requeue only after the patch, without one only if the resource is gone |
| `Controller.InstanaAgentReconciler.CleanupHelmChart` | controllers/cleanup.go:33-50 | goes on without any change if and only if V1 is absent, otherwise removes V1 alone |
| `Controller.InstanaAgentReconciler.CleanupDependents` | controllers/cleanup.go:52-70 | V3 leaves only after everything is gone or the clean-up gave up, as the returned verdicts say; without a ConfigMap it fails and V3 stays; if every write is refused V3 goes and everything stays |
| `Controller.InstanaAgentReconciler.HandleDeletion` | controllers/cleanup.go:72-94 | goes on if and only if there is no deletion mark; V1 goes before V3 |
| `Controller.InstanaAgentReconciler.AddOrUpdateFinalizers` | controllers/finalizer.go:11-23 | goes on if and only if V1 is absent and V3 present, otherwise moves exactly one of them |
| `Controller.InstanaAgentReconciler.ApplyResources` | controllers/apply.go:529-608 | success means that exactly the objects of the generation were applied; undisturbed it converges |
| `Controller.InstanaAgentReconciler.Reconcile` | controllers/instanaagent_controller.go:130-220 | whatever happens the steps taken are a run of the protocol; success is reported only if the resource is gone, or under deletion with nothing left to do, or exactly the objects of its generation were applied, and a requeue only after a patch; a generation becomes unrecorded, or everything uncleaned, only if the returned verdicts gave up; undisturbed the outcome is the one `CalmOutcome` names for what the resource holds; a deletion contended throughout loses V3 with every object live |
| `Controller.CalmOutcomeProgress` | controllers/instanaagent_controller.go:162-215 | each requeue moves exactly one finalizer out of the measure, and a reconcile without requeue has reached the end |
| `Controller.InstanaAgentReconciler.Settle` | controllers/instanaagent_controller.go:162-215 | at most two requeues; then a resource in use has all objects applied, and one being deleted has lost V1 and V3, all other finalizers untouched |
| `Controller.InstanaAgentReconciler.Operate` | controllers/instanaagent_controller.go:246-277 | any number of reconciles by any versions, each cut short by a crash anywhere: every state on the way satisfies the invariant, and every exception on the way has its cause; with fewer than five events no exception arises |
| `Controller.AlwaysSafe` | controllers/instanaagent_controller.go:130-220 | the same of every run of the protocol |
| `Controller.Recover` | controllers/instanaagent_controller.go:130-220 | after any number of disturbed and crashed reconciles by any versions, at most two undisturbed requeues leave the objects and the record of the current generation, or, under deletion, nothing live and the resource released; nothing else is left but objects of other generations that are unrecorded, or after tampering |
| `Controller.SilentLeak` | pkg/k8s/operator/lifecycle/dependent_lifecycle_manager.go:171-187 | a reconcile under deletion of which every delete and store is refused reports success, and ends with the resource gone and the object live |
| `Text.LessIff` | controllers/apply.go:134-142 | at the first difference the smaller character decides, and a proper prefix comes first |
| `Text.ItoaReadBack` | pkg/k8s/operator/lifecycle/dependent_lifecycle_manager.go:210-212 | the text of a number reads back as that number and has no leading zero |
| `Text.SortedUnique` | controllers/apply.go:134-142 | two sorted arrangements of the same strings are equal, so the sorting algorithm cannot matter |
| `Text.SplitOfJoin` | controllers/apply.go:167-176 | splitting undoes joining on every non-empty list of separator-free strings |
| `Text.JoinInjective` | controllers/apply.go:168-180 | non-empty separator-free lists with the same joined text are equal |
| `DaemonSet.SortEnvVarsByName` | pkg/k8s/object/builders/common/helpers/helpers.go:96-100 | a permutation ordered by name, with nothing said about entries of one name |
| `DaemonSet.BuildEnv` | pkg/k8s/object/builders/common/env/env_builder.go:102-112 | for every map order the entries are those of agent.env and the produced ones, and the last one of a name is the produced one if there is one |
| `DaemonSet.Overlay` | pkg/k8s/object/builders/agent/daemonset/daemonset.go:148-174 | a name ends up with its last entry, and keeps its earlier one if it has none |
| `DaemonSet.GetEnvVars` | pkg/k8s/object/builders/agent/daemonset/daemonset.go:107-185 | strictly sorted by name, one entry a name and nothing else; the last entry of a name in pod.env is there; without one, the persist-ID pair if it is wanted; without that, the last entry produced; and the one of agent.env only if there is no other |
| `DaemonSet.CanonicalPrecedence` | pkg/k8s/object/builders/agent/daemonset/daemonset.go:107-185 | the chosen entries are those that the positions in the lists themselves single out |
| `DaemonSet.CanonicalUnique` | pkg/k8s/object/builders/agent/daemonset/daemonset.go:107-185 | there is only one such list, so map order and the unstable sort cannot show |
| `DaemonSet.AgentEnvAt` | controllers/util.go:61-128 | it is the first container named instana-agent that counts |
| `DaemonSet.ShouldSetPersist` | controllers/util.go:61-128 | true for a missing DaemonSet or one whose agent container carries the variable, false for one without, no answer on a read error or without an agent container |
| `DaemonSet.GetDaemonSetBuilders` | controllers/apply.go:57-104 | no builders if and only if some lookup fails; otherwise one per zone, with the answer found under the very name the builder uses |
| `DaemonSet.NamesApart` | pkg/k8s/object/builders/agent/daemonset/daemonset.go:218-225 | DaemonSets of different zones have different names, and none has that of the one without a zone |
| `DaemonSet.ReconcileDaemonSets` | controllers/apply.go:57-104 | looking up, building and applying, with any lookup failing and any apply lost, makes only such changes as the histories below consist of |
| `DaemonSet.RunReconciles` | controllers/util.go:61-128 | reconciles and deletions one after the other, of any agents and any number, leave a history |
| `DaemonSet.BuiltCarries` | pkg/k8s/object/builders/agent/daemonset/daemonset.go:107-185 | a built DaemonSet carries the variable if and only if the setting is on or the resource's environment names it |
| `DaemonSet.StaysSet` | controllers/util.go:61-128 | over histories of every length: once carried, carried by every later version until deletion |
| `DaemonSet.NeverGains` | controllers/util.go:61-128 | over histories of every length: existing without it, it never appears unless the resource's environment names it |
| `Etcd.ExtractCurrentTargets` | controllers/apply.go:153-165 | the plain value of the first ETCD_TARGETS entry of the first agent container, or nothing |
| `Etcd.CompareAndUpdateETCDTargets` | controllers/apply.go:144-185 | for comma-free non-empty targets: no update if and only if deployed and discovered lists are equal as multisets |
| `Etcd.CreateDeploymentContext` | controllers/apply.go:472-527 | a context if and only if there are targets and they differ from the deployed ones; then it holds them sorted |
| `Etcd.GetEtcdEnv` | pkg/k8s/object/builders/k8s-sensor/deployment/deployment.go:131-150 | the entries named ETCD_TARGETS are the one of agent.env, if any, and the one with the value of the spec, else of the context, if any |
| `Etcd.ReconcileEtcd` | controllers/apply.go:488-527 | one reconcile deploys the discovered targets if they had changed and drops them if they had not |
| `Etcd.KeepsTargetsIff` | controllers/apply.go:506-512 | the variable is there after a reconcile if and only if the deployed targets differed before it |
| `Etcd.Alternates` | controllers/apply.go:496-526 | with fixed discovery the variable is present after exactly every other reconcile, for runs of every length |
| `Etcd.FindSlicePort` | controllers/etcd_discoverer.go:325-332 | the first metrics port that has a number, or the service's port |
| `Etcd.TargetsIff` | controllers/etcd_discoverer.go:222-260 | a string is among the targets if and only if it is built from an address of an endpoint, not explicitly unready, of one of the slices, with that slice's port |
| `Etcd.TargetsCount` | controllers/etcd_discoverer.go:222-260 | there are exactly as many targets as such addresses |
| `Etcd.CollectsMore` | controllers/etcd_discoverer.go:242-245 | what one slice gives is added to what the slices before gave, address by address |
| `Etcd.BuildTargetsFromEndpointSlice` | controllers/etcd_discoverer.go:318-350 | targets and addresses of endpoints not explicitly unready correspond one to one, in order |
| `Etcd.BuildTargetsFromLegacyEndpoints` | controllers/etcd_discoverer.go:262-297 | the same for all addresses of the subsets; a missing object gives none, another error an error |
| `Etcd.BuildTargetsFromEndpoints` | controllers/etcd_discoverer.go:222-260 | a sorted permutation of a list that corresponds one to one to the addresses of all slices, each with its own slice's port; legacy subsets serve exactly when the slices give none |
| `Backends.GetBackends` | controllers/util.go:130-180 | the main backend and the additional ones in order, with pairwise distinct suffixes for any number of them |
| `Backends.GetConfigMapData` | pkg/k8s/object/builders/k8s-sensor/configmap/configmap.go:37-43 | one entry a backend, each its own host and port |
| `Backends.BackendKeysApart` | pkg/k8s/object/builders/agent/secrets/keys-secret/secret.go:154-168 | for every suffix a backend's key names collide with no other entry and not with each other |
| `Backends.GetSecretBase` | pkg/k8s/object/builders/agent/secrets/keys-secret/secret.go:72-152 | each field has its own entry if and only if it is set (and mounted), and no write overwrites another |
| `Backends.AddBackendKeys` | pkg/k8s/object/builders/agent/secrets/keys-secret/secret.go:154-168 | every backend has its own key under both names if and only if it is set (and mounted); earlier entries stay |
| `Backends.GetSecretData` | pkg/k8s/object/builders/agent/secrets/keys-secret/secret.go:69-170 | both of the above for the whole Secret |
| `Backends.BuildSensor` | pkg/k8s/object/builders/k8s-sensor/deployment/deployment.go:151-170 | the key file argument resolves to the backend's own key if and only if that key is set and secret mounts are true; with a user's own Secret it resolves to that Secret's entry for the backend, whatever it holds; without mounts the key variable refers to that entry |
| `Backends.BuildSensors` | controllers/apply.go:106-132 | for every spec and any number of backends: distinct Deployment names, every BACKEND reference resolves to its own host and port, every key reference to its own key |
| `Remote.GetData` | pkg/k8s/object/builders/remote-agent/secrets/keys-secret/secret.go:80-149 | with mounts every non-empty field is stored under its name and survives the backend keys |
| `Remote.SecretsVolume` | pkg/k8s/object/builders/common/volume/remote_volume_builder.go:138-231 | lists exactly the files the resource asks for, each with the entry behind it |
| `Remote.BuildRemote` | pkg/k8s/object/builders/remote-agent/deployment/deployment.go:303-322 | whenever the Deployment is built without a user-provided Secret, every entry the mandatory volume lists exists in the built Secret with the non-empty value the resource gives for that file |
| `Remote.SanitizeHostname` | pkg/k8s/object/builders/remote-agent/deployment/deployment.go:167-195 | a non-empty name becomes a label of section 2.1 of RFC 1123 whose every character is the lower case of the one it stands for, or a hyphen if a host name cannot hold that, but for the two ends; labels stay as they are; empty stays empty |
| `Remote.KeepsAlphanumeric` | pkg/k8s/object/builders/remote-agent/deployment/deployment.go:167-195 | a name of at most 63 ASCII letters and digits becomes its lower case |
| `Remote.SanitizeTwice` | pkg/k8s/object/builders/remote-agent/deployment/deployment.go:167-195 | sanitizing is idempotent |

## Left out

- The Helm uninstall, node label clean-up, platform detection and discovery reads are calls without effect on the model's state that may fail.
- The remote agent's lifecycle manager and controller: the same protocol without retry and without V1.
- The OpenShift ETCD copies: outside the records of `ApplyAll`, they rely on owner references.
- Status conditions, events, event filter, logging, manager set-up, RBAC, service, service account, TLS and most volume builders: claims that one branch settles.
- Building the objects of a generation (`buildObjects` and the builders behind it) is the function `Setting.built`, apart from the builders modelled on their own.
- JSON encoding of records: an entry is the list it decodes to, and undecodable entries do not occur.
- Re-creation of a resource under the same name: a run follows one resource.
- A second operator at work on the same resource: of it only what it writes into the ConfigMap.
- URL escaping of the proxy's host and credentials: the rendered URL is a parameter, known not to be empty.
- `sort.Strings` and `sort.Slice` are stood for by insertion sorts whose contracts say only what callers may rely on.
- Lifecycle.Retry: states the control flow over a body that is a function of the attempt number, because a closure cannot change the server; the loop with effects is `RetryOperation`. The 64-bit overflow of the shifted sleep from 63 attempts on is not modelled, since the source calls it with five.
- Lifecycle.DependentLifecycleManager.RetryOperation: is called with one of the two operations instead of a closure.
- Operator.OperatorUtils.ApplyAll: convergence is stated for an undisturbed run, as disturbed ones may stop anywhere; deleted objects that linger but vanish within the time limit are covered by `DeleteAllInTimeLimit` and count as a disturbance here.
- Etcd.CreateDeploymentContext: does not model the branch for OpenShift, which copies objects and discovers nothing.
- Backends.GetBackends: is one method for the agent and the remote resource, which differ only in where the fields come from.
- Remote.SanitizeHostname: takes the lower-casing of one character as a parameter of which only the ASCII part is known; Unicode case tables are not modelled.
