# The kops controller, verified

A Dafny model of the Kubernetes operator that reconciles kops clusters, with proofs of what its
design promises. `dafny verify dfyconfig.toml` checks everything.

The operator runs many workers in one process. Each run of `Reconcile` serves one control plane,
but all runs share a mutex, two process-global AWS variables and the process-global feature flags
of the kops library. The proofs are about what survives that sharing, whatever calls fail.

## How the project is organised

* `Phases.dfy` is one run of `Reconcile` as a machine: every statement that talks to the outside is
  a numbered point, every call succeeds, fails or finds nothing as it likes, and the machine says
  what the run does next, what it remembers and what it changes. Results of the kops library are
  represented by everything the library reads to make them: the specification, the cloud
  connection, the AWS variables and the feature flags (`Built`).
* `Runs.dfy` proves what every single run keeps: lock discipline, the order of a teardown and what
  guards it, and the meaning of `Ready`. The cluster a run sees may change between any two calls.
* `Reconcile.dfy` is `Reconcile` again in the imperative shape of the code: a class with the
  variables of the code, the shared mutex, environment and flags as objects, loops that write
  `kmps[i]`, early returns and the deferred closure. Each call takes one step of the machine along,
  so the contract of the method says that a run of the code is a history of the machine, and the
  theorems of `Runs.dfy` become its postconditions.
* `Fleet.dfy` puts any number of such runs side by side, while users create and delete pools and
  control planes at any time. `Serial.dfy` compares the interleavings with serving one cluster
  after the other, `Progress.dfy` shows that runs end and cannot block each other, and
  `Orphans.dfy` and `LostGuards.dfy` follow the instance groups, `SshKeys.dfy` the key of each
  cluster. `Road.dfy` drives an ordinary run from any idle world, for the histories on which a key
  or a finalizer is lost.
* `Script.dfy` writes down the list of calls of a run in which nothing fails and proves that such a
  run makes exactly these; an error cuts the list short and leaves the deferred closure.
  `BuildOrder.dfy` shows that whatever fails the normal path leaves no step out, and `Metrics.dfy` is
  the gauge of consecutive errors.
* `Secrets.dfy` is the secret reconciler, `Pools.dfy` and `Karpenter.dfy` list, sort and render the
  pools, `FeatureFlags.dfy` sets the feature flags, `Validation.dfy` judges a validation.
* `Retry.dfy`, `LockFile.dfy`, `ProviderPattern.dfy`, `ProviderVersion.dfy` and `ProviderParts.dfy`
  are terraform: the retry loops, the shared lock file, the rewrite of the provider version with its
  regular expression, and what exactly it changes.
* `Eviction.dfy` and `ServiceRange.dfy` are two small parsers with real bounds; `Common.dfy` and
  `Text.dfy` hold what several of them use.

## What came out

Six properties that one might expect are not true of the code. For each there are a lemma that says
exactly when the property does hold and inputs on which it fails.

* Feature flags: only four Spotinst flags are reset for each control plane. Any other flag whose
  name mentions Spotinst stays as an earlier control plane left it (`UnresetFlagLeaks`); the flags
  that are free of this are exactly the four and those the control plane names itself
  (`LeakExactly`). The four and Karpenter are all that the proofs of isolation speak about.
* Secrets: an error of either pass is swallowed by `ReconcileKopsSecrets`, and ownership rests on
  the status being saved afterwards. If the list of a call is lost, ownership survives exactly if
  every name the call copied was stored or listed before (`LostListExactly`, and
  `LostListOfCompleted` as a test before the call); a name for which this fails stays in the store
  for good, out of reach of every later call that does not desire it (`LostListLeaks`, and an input
  in `LostListExample`).
* SSH keys: the key is added right after a cluster is created in kops and at no other time. A
  cluster has its key exactly if the one call since its last deletion succeeded (`KeyDecidedOnce`);
  if it failed, every later run updates the cluster and none adds the key (`KeyLostForGood`). Any
  ordinary run for a new cluster can come to this (`KeyLostExample`).
* Instance groups: with distinct pool names a run leaves all groups guarded exactly if none of its
  saves fails that was to store a new finalizer for an existing group (`OrphansExactly`); an ordinary
  run for a new pool can end with its group left behind (`OrphanExample`).
* Shared lock file: once it exists it is never written again. It is what a successful init left
  exactly if no write of it was cut short, or a successful init left just the text the cut write got
  to (`WholeExactly`); otherwise every later worker has only the beginning of it (`TornForGood`), as
  after the very first worker whose write is cut short (`TornExample`).
* Provider version: a replaced value with a closing brace can hide a later version of the same block,
  and then a second rewrite changes the file again (`BraceBreaksIdempotence`). Rewriting twice is
  rewriting once exactly where no replacement brings another version into view
  (`IdempotentExactly`), in particular where no replaced value has a brace (`Idempotent`).

Two more facts that a reader of the code may not expect: a service range cut from a block with
fewer than three free bits is the text `<nil>` and no error (`RangeExactlyWhenRoom`), and a node
whose ready condition is unknown counts as ready (`EvaluateKopsValidationResult`).

## Model

| member | source | states |
|---|---|---|
| Reconcile.Reconciliation.Reconcile | controllers/controlplane/kopscontrolplane_controller.go:576-1008 | one run in the shape of the code is a history of the machine and ends without the mutex; the closure is registered exactly when the control plane is found, is to be served here and belongs to a cluster; an error is returned exactly when a call failed that is not tolerated; Ready is set exactly when deserved; the finalizer is gone only after a complete teardown; a run that returns no error and is neither paused nor a dry run has left nothing behind and dropped the finalizer if the control plane is marked for deletion and not protected, and otherwise has saved and applied its own specification with its own credentials and set the finalizer; outside dry runs the gauge counts the run |
| Reconcile.Reconciliation.Body | controllers/controlplane/kopscontrolplane_controller.go:698-1008 | from registering the closure to a return, on any path: the variables are those of the machine, the error is the machine's, and a return without an error means that the deletion or the build was brought to its end |
| Reconcile.Reconciliation.DeleteCluster | controllers/controlplane/kopscontrolplane_controller.go:729-813 | if the delete path reports no error, nothing applied, no specification, no key and no instance group is left, and all listed pools and the control plane have lost their finalizers |
| Reconcile.Reconciliation.DeleteInKops | controllers/controlplane/kopscontrolplane_controller.go:756-788 | the critical section of a deletion ends at a return with the lock still to be given back, or outside it with the cluster gone from kops |
| Reconcile.Reconciliation.DestroyTerraform | controllers/controlplane/kopscontrolplane_controller.go:737-754 | the section is approached only with everything that terraform had applied destroyed |
| Reconcile.Reconciliation.ReleasePools | controllers/controlplane/kopscontrolplane_controller.go:790-812 | a failure at pool k leaves exactly pools 0..k-1 without finalizer and the others as they were; the control plane keeps its finalizer unless everything succeeded |
| Reconcile.Reconciliation.ReconcileKopsMachinePools | controllers/controlplane/kopscontrolplane_controller.go:841-858 | what becomes of each pool is a function of that pool and of its own calls, so a failure of one changes nothing for another; with distinct names, the group of every pool whose calls succeeded is there exactly when the pool is to stay |
| Reconcile.Reconciliation.ReconcileKopsMachinePool | controllers/controlplane/kopscontrolplane_controller.go:1038-1093 | a live pool gets the finalizer even if its group cannot be saved; a pool marked for deletion loses it only when deleting its group and its owners succeeded; no other pool and no other group changes |
| Reconcile.Reconciliation.CreateOrUpdateInstanceGroup | controllers/controlplane/kopscontrolplane_controller.go:1153-1177 | without an error the group exists afterwards, with one the groups are as before; no other group changes |
| Reconcile.Reconciliation.ListKopsMachinePools | controllers/controlplane/kopscontrolplane_controller.go:732-735 | without an error the list of the run is the pools as stored at that moment, sorted by namespace and name, a text before its extensions |
| Reconcile.Reconciliation.SetEnvVarsFromAWSCredentials | pkg/utils/kops_utils.go:422-442 | unless one of the four calls fails, both variables hold the caller's credentials afterwards, whatever they held before |
| Reconcile.Reconciliation.SetKarpenterFlag | controllers/controlplane/kopscontrolplane_controller.go:873-878 | the flag ends as the control plane wants it, whatever it was |
| Reconcile.Reconciliation.SetFeatureFlags | controllers/controlplane/kopscontrolplane_controller.go:873-884 | without an error the library finds exactly this control plane's feature flags from here on |
| Reconcile.Reconciliation.SetSpotinstFlags | controllers/controlplane/kopscontrolplane_controller.go:880-884 | the run ends with an error exactly for missing Spotinst credentials, and in either case the flags end as specified from what they were |
| Reconcile.Reconciliation.CreateOrUpdateKopsCluster | controllers/controlplane/kopscontrolplane_controller.go:378-408 | without an error the kops state holds the run's own specification, made with its own credentials and flags; a key is added exactly when a missing cluster was created without an error |
| Reconcile.Reconciliation.SaveCluster | controllers/controlplane/kopscontrolplane_controller.go:898-913 | without an error the same specification is stored, and the run never ends with an error of the secrets |
| Reconcile.Reconciliation.BuildCluster | controllers/controlplane/kopscontrolplane_controller.go:868-963 | the rest of the critical section: without an error, and unless it is a dry run, the kops state holds the run's own specification |
| Reconcile.Reconciliation.ApplyAndValidate | controllers/controlplane/kopscontrolplane_controller.go:973-1008 | a run that ends here without an error has applied its own terraform files with its own credentials; a scaling group that does not exist yet ends the run without an error |
| Reconcile.Reconciliation.Deferred | controllers/controlplane/kopscontrolplane_controller.go:641-697 | the closure leaves the mutex unlocked by this run, keeps the returned error and what was built and, unless it is a dry run, counts the run once |
| Script.DeletionTaken | controllers/controlplane/kopscontrolplane_controller.go:148-160 | at the decision the deletion is taken if and only if the control plane is marked for deletion, is not protected and the run is no dry run |
| Script.WholeRun | controllers/controlplane/kopscontrolplane_controller.go:576-1008 | a run that finds its cluster and in which no call fails makes exactly the calls of the source in their order, for any number of pools, paused or not, deleting or not, dry or not; only whether a group and the cluster are there already is left open |
| Script.TakenUp | controllers/controlplane/kopscontrolplane_controller.go:604-638 | a run ends at the first of the four tests it does not pass (fetched, class, name, owner), with nothing else called |
| Script.FailureEnds | controllers/controlplane/kopscontrolplane_controller.go:641-1008 | after an error outside single pools, the secrets and the closure there is the deferred closure and nothing else |
| Script.GoesOn | controllers/controlplane/kopscontrolplane_controller.go:841-851 | an error at a pool goes on with the next pool, one of the secrets with rendering; a missing scaling group ends the run |
| Script.DeferredCalls | controllers/controlplane/kopscontrolplane_controller.go:641-697 | from any return on, whatever fails: the mutex, every pool of the list, the control plane, the gauge; after a dry run the mutex alone |
| Script.AnyCallMayFail | controllers/controlplane/kopscontrolplane_controller.go:576-1008 | in the model every call to the outside may fail at any point, whatever the cluster is like |
| Script.FoundExactly | controllers/controlplane/kopscontrolplane_controller.go:604-638 | the closure is registered exactly in a run that finds its cluster |
| Runs.LockDiscipline | controllers/controlplane/kopscontrolplane_controller.go:641-645 | over every path: nobody locks twice or unlocks what it does not hold, at every return the flag equals holding, and no finished run holds the mutex |
| Runs.TeardownGuard | controllers/controlplane/kopscontrolplane_controller.go:148-160 | destroy and delete happen only when marked for deletion, unprotected, unpaused and not a dry run; a dry run saves and applies nothing |
| Runs.TeardownOrder | controllers/controlplane/kopscontrolplane_controller.go:729-813 | what a deletion has done is always an initial part of the one full order, and exactly the pools released so far have lost their finalizer |
| Runs.ReadyMeaning | controllers/controlplane/kopscontrolplane_controller.go:698-704 | after a finished, unpaused run Ready holds exactly when it was no dry run and no deletion, no call failed outside single pools and secrets, and the validation was healthy; terraform was applied then |
| Runs.FinalizerAdded | controllers/controlplane/kopscontrolplane_controller.go:815-819 | in the critical section a run that is no deletion has its finalizer set |
| BuildOrder.NothingLeftOut | controllers/controlplane/kopscontrolplane_controller.go:868-966 | at any point of the critical section every needed earlier step has succeeded, or failed where that is tolerated |
| BuildOrder.AppliedLast | controllers/controlplane/kopscontrolplane_controller.go:868-973 | terraform is applied only after all of them, the pinned provider version included, and after the cluster was created with its key or updated |
| Metrics.ErrorReturned | controllers/controlplane/kopscontrolplane_controller.go:576-1008 | an error is returned exactly when some call failed that the code does not tolerate |
| Metrics.ErrorGauge.Inc | controllers/controlplane/kopscontrolplane_controller.go:689-691 | one more error for its cluster and environment, all other values unchanged |
| Metrics.ErrorGauge.SetZero | controllers/controlplane/kopscontrolplane_controller.go:692-694 | zero for its cluster and environment, all other values unchanged |
| Metrics.GaugeIsStreak | controllers/controlplane/kopscontrolplane_controller.go:688-694 | for every cluster and environment the gauge is the number of error-returning runs since the last run without an error, and no other number is |
| Fleet.MutualExclusion | controllers/controlplane/kopscontrolplane_controller.go:756-819 | with any number of workers at most one run is between Lock and Unlock, the mutex is locked exactly when a run holds it, and only the holder unlocks it |
| Fleet.OwnGlobals | pkg/utils/kops_utils.go:422-442 | at each call of the kops library that reads them the AWS variables are the caller's own, on the normal path its feature flags too, and the connection was made with its credentials |
| Fleet.OwnResults | controllers/controlplane/kopscontrolplane_controller.go:886-973 | what is saved, applied and deleted is made from the run's own specification, credentials and flags alone |
| Fleet.SavedExactly | controllers/controlplane/kopscontrolplane_controller.go:648-653 | saving a pool sets the finalizer of the stored object with its key, or takes the object away if it is marked and has no finalizer any more, and nothing else |
| Fleet.ReadAgain | controllers/controlplane/kopscontrolplane_controller.go:797-801 | reading a pool again gives the stored object with its key |
| Fleet.UsersMayAct | controllers/controlplane/kopscontrolplane_controller.go:148-160 | in the model users may create pools with new keys, delete pools and delete the control plane at any time |
| Fleet.AnyRunMayBegin | controllers/controlplane/kopscontrolplane_controller.go:576-600 | in the model a run with any settings may begin whenever its cluster has none and a worker is free |
| Fleet.ControlPlaneGoesLast | controllers/controlplane/kopscontrolplane_controller.go:806-812 | over every sequence of runs, with users changing objects at any time, the stored finalizer of a control plane goes only by the save of a run in which the whole teardown succeeded in order |
| Serial.OnlyOwnEventsMatter | controllers/controlplane/kopscontrolplane_controller.go:818-973 | two interleavings with the same events of each cluster leave the same clusters and the same active runs |
| Serial.Serialisable | controllers/controlplane/kopscontrolplane_controller.go:756-973 | every interleaving with any failures and any changes by users leaves the clusters exactly as serving them one after the other would, in any order of the clusters |
| Progress.RunsEnd | controllers/controlplane/kopscontrolplane_controller.go:576-1008 | a run over at most b pools takes at most 490(b + 1) steps, whatever fails |
| Progress.NoDeadlock | controllers/controlplane/kopscontrolplane_controller.go:818-819 | as long as a run is active some run can move |
| Orphans.NoOrphans | controllers/controlplane/kopscontrolplane_controller.go:1069-1086 | between runs every instance group has a stored pool of its name that carries the finalizer, if it was so at the start, whatever users do in the middle of runs, and as long as no deferred save fails that was to store a new finalizer for an existing group |
| LostGuards.FailedSaveOrphans | controllers/controlplane/kopscontrolplane_controller.go:648-660 | when such a save fails and no other stored pool of that name carries the finalizer, a group without a guard is left at once |
| LostGuards.OrphansExactly | controllers/controlplane/kopscontrolplane_controller.go:641-697 | for distinct pool names, and unless users change the pools of this cluster meanwhile, a run that starts with all groups guarded ends so if and only if no such save failed in it |
| LostGuards.OrphanExample | controllers/controlplane/kopscontrolplane_controller.go:641-697 | from any idle world, a history of one ordinary run for a cluster with a new pool that ends with its group unguarded |
| Orphans.FinalizerGoesLast | controllers/controlplane/kopscontrolplane_controller.go:1069-1079 | over every history, whatever has failed and whatever users did, a run takes a finalizer off a pool only when the group of that name is gone, alone or with the cluster |
| SshKeys.KeyDecidedOnce | controllers/controlplane/kopscontrolplane_controller.go:378-408 | over every history at most one call for the key is made between two deletions in kops; the cluster is stored exactly if it was made and has the key exactly if it succeeded |
| SshKeys.KeyLostForGood | controllers/controlplane/kopscontrolplane_controller.go:378-408 | a stored cluster keeps its key, or its lack of one, through any further runs, none of which creates it or adds a key, until a deletion in kops succeeds |
| SshKeys.KeyCanBeLost | controllers/controlplane/kopscontrolplane_controller.go:384-391 | wherever a history reaches the call for the key, the call may fail and leaves the cluster stored without a key |
| SshKeys.KeyLostExample | controllers/controlplane/kopscontrolplane_controller.go:378-408 | from any idle world, a history of one ordinary run for a cluster that is not stored, after which the cluster has no key until a deletion in kops succeeds |
| Secrets.ReconcileSecretsDelete | pkg/utils/kops_utils.go:226-255 | wherever it stops, the store and the list are those with the first entries handled; it stops early if and only if one of the deletions the list asks for fails, namely at the name whose deletion fails |
| Secrets.CopySecret | pkg/utils/kops_utils.go:260-278 | one secret is stored and listed, with two calls if it is outdated and one otherwise; if one of them fails nothing has changed |
| Secrets.ReconcileSecretsNormal | pkg/utils/kops_utils.go:257-281 | for any order of the map, exactly the copied names are written and listed; some are missing if and only if one of the calls fails, of which there are as many in any order |
| Secrets.ReconcileSecrets | pkg/utils/kops_utils.go:283-301 | only an unreadable source is reported; which call of the store fails settles how far the two passes get, and if it is none of theirs both are complete |
| Secrets.ControlPlaneStatus.IsSecretListed | pkg/utils/kops_utils.go:303-310 | found exactly when listed |
| Secrets.ControlPlaneStatus.RemoveSecret | pkg/utils/kops_utils.go:245-250 | shifting in place removes the first occurrence of a name and nothing else |
| Secrets.KeepIsFilter | pkg/utils/kops_utils.go:226-255 | the kept list is the order-preserving filter of the old one, duplicates included |
| Secrets.CompletedResult | pkg/utils/kops_utils.go:226-281 | the store is the old one without the listed names that are not desired, overridden by the desired map; the listed names are the desired keys; names in neither are untouched |
| Secrets.OwnershipKept | pkg/utils/kops_utils.go:226-301 | wherever a call stops, every secret made and not deleted is listed, and no undesired name is forgotten while its secret exists |
| Secrets.OwnershipOverHistory | pkg/utils/kops_utils.go:226-301 | the same over any number of calls for any desired maps |
| Secrets.Convergence | pkg/utils/kops_utils.go:283-301 | after any number of interrupted calls for one desired map, a complete one leaves the store of an uninterrupted call |
| Secrets.SomeCompletion | pkg/utils/kops_utils.go:283-301 | from every state a failure-free call is possible |
| Secrets.Stable | pkg/utils/kops_utils.go:283-301 | a further call for the same desired map changes neither store nor list |
| Secrets.NoLeaks | pkg/utils/kops_utils.go:226-301 | over any history ending in a complete call, what is in the store is desired or was never under management |
| Secrets.LostListExactly | pkg/utils/kops_utils.go:226-301 | if the list is lost when a call stops anywhere, ownership survives exactly if every name it copied was stored or listed before |
| Secrets.LostListOfCompleted | pkg/utils/kops_utils.go:226-301 | for a completed call this is so exactly if every desired name was stored or listed before the call |
| Secrets.UnlistedStays | pkg/utils/kops_utils.go:226-301 | over any history a name that is stored, not listed and never desired keeps its first value and stays unlisted |
| Secrets.LostListLeaks | pkg/utils/kops_utils.go:226-301 | if the list of a call is lost, every new secret it wrote stays for good, with its value and without an owner, through all later calls that do not desire it |
| Secrets.LostListExample | pkg/utils/kops_utils.go:226-301 | an input on which this happens |
| FeatureFlags.Process.ParseSpotinstFeatureflags | pkg/utils/kops_utils.go:90-111 | the four flags are reset in any case, an error is reported exactly for missing credentials, and then the user's Spotinst tokens apply in order |
| FeatureFlags.TokenForms | pkg/utils/kops_utils.go:91-104 | a name with a plus sign or none switches its flag on, with a minus sign off, and no other flag |
| FeatureFlags.TokensThatCount | pkg/utils/kops_utils.go:101-104 | the tokens in force are, in their order, exactly those of the list that contain Spotinst |
| FeatureFlags.FlagSpelledOut | pkg/utils/kops_utils.go:90-111 | every flag after a call without error in terms of the list alone: its last token that counts and names the flag; without one Spotinst as enabled, the other three off, any other flag as it was |
| FeatureFlags.LastTokenWins | pkg/utils/kops_utils.go:100-107 | the last token naming a flag decides it, other flags keep their value |
| FeatureFlags.FlagAfter | pkg/utils/kops_utils.go:90-111 | every flag afterwards: the last token in force, otherwise off for the four and unchanged for the rest |
| FeatureFlags.OtherFlagsKept | pkg/utils/kops_utils.go:101-106 | no flag whose name lacks Spotinst is changed by the user's list |
| FeatureFlags.FlagsAreOwn | controllers/controlplane/kopscontrolplane_controller.go:873-884 | Karpenter and the four Spotinst flags end as a function of this control plane alone, whatever was set before |
| FeatureFlags.LeakExactly | pkg/utils/kops_utils.go:90-111 | a flag is independent of earlier settings if and only if it is one of the four or named by a token in force |
| FeatureFlags.UnresetFlagLeaks | pkg/utils/kops_utils.go:91-91 | a Spotinst flag outside the four survives into a control plane without any Spotinst settings |
| Validation.EvaluateKopsValidationResult | pkg/utils/kops_utils.go:128-154 | healthy exactly when no failure of a kind other than Pod and no node with status False, and exactly then without messages |
| Validation.FailuresTold | pkg/utils/kops_utils.go:131-137 | one message for each failure of a kind other than Pod, in their order, and no other |
| Validation.NodesTold | pkg/utils/kops_utils.go:138-150 | one message for each node with status False, in their order, and no other |
| Pools.CompareMeans | pkg/kops/kops.go:70-72 | a text compares as smaller exactly if it is a proper beginning of the other or has the smaller character where they first differ |
| Pools.GetKopsMachinePoolsWithLabel | pkg/kops/kops.go:48-75 | the error cases, and otherwise a permutation of what the API server answers in which of any two pools the earlier has the smaller namespace or, within a namespace, no larger name |
| Pools.SortPools | pkg/kops/kops.go:70-72 | sorting in place yields such a permutation |
| Pools.SortedIsUnique | pkg/kops/kops.go:70-72 | with unique keys two sorted arrangements of the same pools are identical |
| Karpenter.SelectPools | controllers/controlplane/kopscontrolplane_controller.go:841-858 | the pools not marked for deletion and no others, in order; Karpenter is on exactly if some listed pool has node pools |
| Karpenter.ExistingIsFilter | controllers/controlplane/kopscontrolplane_controller.go:852-854 | the pools that stay are the order-preserving filter of the list: exactly the positions of those not marked for deletion |
| Karpenter.EveryNodePoolRendered | controllers/controlplane/kopscontrolplane_controller.go:220-269 | every node pool of every pool that stays is in the stream, its document and then its node class, at the place the node pools before it leave |
| Karpenter.WriteResources | controllers/controlplane/kopscontrolplane_controller.go:186-269 | the stream of the placeholder and all documents in order, or a failure exactly when some node class cannot be built or one of the 4 + 7n calls for n node pools that create, marshal and write fails |
| Karpenter.DocumentCount | controllers/controlplane/kopscontrolplane_controller.go:220-269 | two documents for every node pool |
| Karpenter.OnlyDeletingUsers | controllers/controlplane/kopscontrolplane_controller.go:852-857 | when only pools marked for deletion use Karpenter it is on and there is nothing but the placeholder |
| Karpenter.ResourcesSplitBack | controllers/controlplane/kopscontrolplane_controller.go:212-268 | splitting the stream at separator lines recovers the documents |
| Karpenter.BlankLineIsPlain | controllers/controlplane/kopscontrolplane_controller.go:263-267 | the blank line behind a node class adds no separator |
| Karpenter.ContentIndependentOfOrder | controllers/controlplane/kopscontrolplane_controller.go:186-274 | any two orders in which the pools are listed give the identical content, and so the identical hash input |
| Retry.IsRetriableError | pkg/utils/terraform_utils.go:126-148 | true exactly when the text holds one of the five patterns |
| Retry.CorruptionIsRetriable | pkg/utils/terraform_utils.go:277-280 | every corruption error is retriable, and the only other retriable one is a busy file |
| Retry.RunWithRetries | pkg/utils/terraform_utils.go:321-347 | the attempts made, the answer returned and the exact time slept, for any limit and any answers |
| Retry.InitWithRetries | pkg/utils/terraform_utils.go:260-298 | the same, with the cache cleaned after the first corruption error that is followed by another attempt, which shortens that wait to a second |
| Retry.Terraform | pkg/utils/terraform_utils.go:313-347 | the command runs only after a successful init and at most five times; the waits of both loops add up to at most 30 seconds |
| Retry.AttemptsAreSettled | pkg/utils/terraform_utils.go:321-347 | the number of attempts is determined by the answers |
| Retry.SucceedsExactly | pkg/utils/terraform_utils.go:321-347 | success is returned exactly when an attempt within the limit succeeds and all before it fail with retriable errors |
| Retry.WaitsDouble | pkg/utils/terraform_utils.go:338-340 | the first wait is a second, each further one twice the one before, and a clean turns the wait in its place into a second |
| Retry.SleepIsBounded | pkg/utils/terraform_utils.go:338-340 | at most 2^(N-1) - 1 seconds for a limit of N |
| Retry.InitBehavesAsApply | pkg/utils/terraform_utils.go:260-298 | cleaning changes neither the attempts nor the answer, and without corruption errors both loops behave the same |
| Retry.CleanedOnce | pkg/utils/terraform_utils.go:274-292 | the cache is cleaned at most once, and only after a retriable error with another attempt to come |
| LockFile.FileSystem.CopyFileIfMissing | pkg/utils/terraform_utils.go:84-98 | an existing target and a missing source change nothing and are no errors; otherwise the target becomes a copy, or with an error the beginning of one |
| LockFile.FileSystem.CleanupTerraformDirectory | pkg/utils/terraform_utils.go:429-451 | names with the terraform prefix, the lock file among them, are never removed; without an error nothing else is left |
| LockFile.SharedIsWrittenOnce | pkg/utils/terraform_utils.go:239-306 | over any interleaving, once the shared lock file exists it never changes; it is the beginning of what a successful init left, and all of it unless a write of it is cut short |
| LockFile.TornForGood | pkg/utils/terraform_utils.go:84-98 | a write of the shared lock file that is cut short leaves exactly that beginning for all workers and all time |
| LockFile.WholeExactly | pkg/utils/terraform_utils.go:239-306 | the shared lock file is what a successful init left if and only if no write of it was cut short, or an init left just the text that the cut write got to |
| LockFile.TornExample | pkg/utils/terraform_utils.go:239-306 | a history of the first worker, for any content and any place of the cut, after which the shared file is only the beginning whatever follows |
| LockFile.StartsFromShared | pkg/utils/terraform_utils.go:254-258 | in any history a worker starts its first init from its own lock file if it came with one, and otherwise from the shared one as far as the read and the write of the copy went, or from none if there is none |
| LockFile.StartsFromWhole | pkg/utils/terraform_utils.go:254-258 | if its copy does not fail, a worker that came without a lock file starts from exactly the shared one, or from none |
| LockFile.CanArrive | pkg/utils/terraform_utils.go:239-258 | whenever nobody is inside, a worker can get from entering to its first init |
| LockFile.SavesWhatInitLeft | pkg/utils/terraform_utils.go:300-302 | in any history, after a successful init the shared file is the one there was or, if there was none, what the init left as far as the read and the write of the copy went |
| LockFile.OneWorkerInside | pkg/utils/terraform_utils.go:239-248 | one worker at a time is inside initTerraform, and the lock is held exactly while one is |
| ProviderPattern.GreedyMatch | pkg/utils/terraform_utils.go:199-199 | the matching function finds a match whenever the expression has one at the start of the text, and the one with the longest repetition |
| ProviderVersion.KubernetesFile.ModifyTerraformProviderVersion | pkg/utils/terraform_utils.go:189-214 | unreadable and unmatched files are left alone with their error; otherwise all matches are replaced by the expanded template with the version without its quotes, and a failing write leaves the file as it was or the beginning of the new one |
| ProviderVersion.ExpandPieces | pkg/utils/terraform_utils.go:205-206 | in a replacement two dollar signs stand for one, a group in braces for its text, and a dollar sign before anything else for itself |
| ProviderVersion.NoDollarNoExpansion | pkg/utils/terraform_utils.go:205-206 | for versions without a dollar sign this is the rewrite that the other laws are about |
| ProviderVersion.IdempotentExactly | pkg/utils/terraform_utils.go:199-206 | rewriting twice is rewriting once if and only if, behind every replaced value, the version that comes into view is none or the new one already |
| ProviderVersion.Idempotent | pkg/utils/terraform_utils.go:199-206 | in particular for every plain version where no replaced value hides a later version of its block behind a closing brace |
| ProviderVersion.BraceBreaksIdempotence | pkg/utils/terraform_utils.go:199-206 | a replaced value with a closing brace in front of a later version breaks it |
| ProviderParts.ExactlyMatchedChange | pkg/utils/terraform_utils.go:205-206 | a part of the text between its quotes becomes the version if it is the value of one of the leftmost matches that do not overlap, and stays as it is if not |
| ProviderParts.LeftmostIsUnique | pkg/utils/terraform_utils.go:205-206 | there is only one list of leftmost matches that do not overlap |
| ProviderParts.OnlyQuotedTextChanges | pkg/utils/terraform_utils.go:205-206 | a part changes only if it is the value of a longest match of the expression somewhere, and then it becomes the version; all else stays in place |
| ProviderVersion.NoMatchNoChange | pkg/utils/terraform_utils.go:201-203 | without a match there is nothing to rewrite |
| ProviderVersion.Matches | pkg/utils/terraform_utils.go:201-201 | whether a match begins anywhere in the text |
| ProviderVersion.QuotesDropped | pkg/utils/terraform_utils.go:192-192 | however a version is quoted, the quotes around it are dropped and no others |
| Eviction.ParseEvictionThresholds | pkg/utils/karpenter_utils.go:122-143 | an error, with the first such segment, exactly when a segment is not well formed; otherwise each accepted signal with the value of its last occurrence and nothing else, and nothing at all for an empty result |
| Eviction.WellFormedExactly | pkg/utils/karpenter_utils.go:129-133 | a segment is well formed exactly if it has the sign, something other than blanks before the first one, and a valid value behind it |
| Eviction.AcceptedSignals | pkg/utils/karpenter_utils.go:113-120 | the six signals that are accepted |
| Eviction.RenderedParsesBack | pkg/utils/karpenter_utils.go:122-143 | any non-empty map of accepted signals to trimmed, valid, comma-free values, rendered in any order, is the only result its text can have |
| ServiceRange.RangeExactlyWhenRoom | pkg/kops/kops.go:99-117 | a range comes out exactly when the block has three bits to spare, otherwise the text of a nil mask without an error |
| ServiceRange.ErrorExactly | pkg/kops/kops.go:101-104 | an error is reported exactly when the configured range is no CIDR |
| ServiceRange.RangeInsideBlock | pkg/kops/kops.go:106-116 | the range keeps the network address, is aligned, and lies inside the block |
| ServiceRange.RangeSize | pkg/kops/kops.go:107-112 | prefix at least 20 and 20 for any block with a prefix below 17, otherwise an eighth of the block, and for IPv4 never more than 4096 addresses |

## Left out

- Calls to the API server, AWS, kops and terraform are single steps that succeed or fail; a call that fails has no effect. In particular a kops deletion that removes some resources and then fails is a failed call. Files that are written in part are considered for the lock file and the provider version only.
- Objects are read fresh: a run sees the control plane and its pools as they are stored, and an update that conflicts is an update that fails.
- A run reads the control plane once, at its start; users may delete it and create and delete its pools in the middle of a run, but a change of its specification counts for the next run.
- At most one run per cluster is active, as the work queue of the controller guarantees; two control planes whose owners have the same name, which would share a terraform directory and a kops cluster, are not considered.
- The collection of provider identifiers over the pools is one call, and the status fields of pools, conditions, events and requeue times are not modelled.
- The steps of the secret reconciler are one call in the machine of a run; its two passes are modelled in `Secrets.dfy` on their own.
- FeatureFlags.FlagsAreOwn: speaks of Karpenter and the four flags that are reset; other Spotinst flags do depend on earlier control planes, as `LeakExactly` says.
- Fleet.OwnGlobals: claims feature flags on the normal path only, because a deletion sets the AWS variables but not the flags.
- Runs.TeardownGuard: does not claim that a dry run leaves the kops state alone, because addons are replaced on that path too.
- ProviderVersion.KubernetesFile.ModifyTerraformProviderVersion: in a version with a dollar sign the name of a group ends at a letter or digit outside ASCII, where Go takes these as part of the name.
- ProviderVersion.IdempotentExactly: speaks of versions without quotes and braces that do not contain the word version; other versions can look like text of the expression themselves.
- Orphans.NoOrphans: needs the save of each new finalizer to succeed; what happens otherwise is in `LostGuards.dfy`.
- LostGuards.OrphansExactly: is about distinct pool names and pools that users leave alone during the run, because another pool of the name could guard the group just as well.
- Eviction.ParseEvictionThresholds: which values are valid is a parameter; the numeric grammar of quantities and percentages is not modelled.
- Rendering of YAML and HCL, certificates, kubeconfigs, hashing and templates are texts or opaque values; the metric is a number per cluster and environment.
- Volume defaults, cloud labels, the merging of kubelet settings, resource names and the other one-line helpers are not part of this model: they would only add easy members.
