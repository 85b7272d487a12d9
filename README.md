# KnativeKafka reconciler and configuration helpers, in Dafny

This project models the KnativeKafka controller of the OpenShift Serverless
operator (`knative-operator/pkg/controller/knativekafka/knativekafka_controller.go`)
and two configuration helpers (`knative-operator/pkg/common/util.go`), and proves
what they promise.

The controller reconciles one KnativeKafka object, which declares whether the
Kafka Channel and the Kafka Source components are enabled:

- a KnativeKafka that is gone is a terminal success;
- an object marked for deletion takes the finalizer protocol: the components
  are deleted, then the object is re-fetched and the controller's finalizer
  (`knative-kafka-openshift`) is removed from the re-fetched list;
- otherwise the object is copied, the status conditions are initialised, and
  two stages run in order: `ensureFinalizers`, then `installKnativeKafka`. The
  first failing stage stops the pipeline. The status is written back only if
  it changed.

Installing or deleting a component works on its manifest. The manifest is
loaded and then transformed: KafkaChannel resources get an owner reference and
the owner annotations, KafkaSource resources the annotations only. An install
then applies the manifest and checks its Deployments for availability.
KafkaChannel always comes before KafkaSource, and a disabled component is left
alone.

Structure:

- `cluster.dfy` (module `Cluster`): an abstract cluster. A `World` holds
  - the environment: the deployments' conditions, both manifests, and a fault
    oracle;
  - the store of KnativeKafka objects;
  - the live manifest resources;
  - the trace of calls issued.

  Every client call appends one `Call` to the trace. The fault oracle is a map
  from call positions to error texts, fixed in the environment: the call at
  position `n` of the trace fails, with the oracle's text, exactly when the
  oracle names `n`. The oracle is the only source of injected call failures.
  It stands for network errors, conflicts and rate limiting alike. The other
  failures come from the state itself:
  - a Get or an Update of a KnativeKafka that is not in the store returns NotFound;
  - a Get of a deployment that is not there returns NotFound;
  - the readiness verdict fails a deployment that is unavailable.

  Each operation is a function from the world before to the world after and
  the value returned. The `Client` class carries the same state as fields, and
  each method is proved equal to its function.
- `kafka_api.dfy` (module `KafkaApi`): the KnativeKafka resource, and `Instance`,
  the in-memory copy the controller edits in place.
- `controller.dfy` (module `Controller`): one specification function per
  operation of the controller (`ReconcileS`, `FinalizeS`, `InstallComponentS`, …).
  It also holds the imperative methods of the source, the `Reconciler` class
  with its stage loop and the `checkDeployments` loops, each proved to match
  its function.
- `string_sets.dfy` (module `StringSets`): Go's byte-wise string order, and
  `sets.String.List()` as a sorting method, proved to give the unique strictly
  sorted listing of the set.
- `properties.dfy` (module `Properties`): the properties of the controller,
  stated over the specification functions. They cover:
  - which calls each step can issue, and in what order;
  - where the pipeline stops;
  - the finalizer list;
  - the readiness verdict;
  - the status write;
  - idempotence of reconciling and completion of deletion, when nothing
    fails.
- `common.dfy` (module `Common`): covers two helpers.
  - `Configure` is a method on a `KnativeServing` whose nested config map it
    edits in place.
  - `buildImageOverrideMapFromEnviron` is a loop over the environment entries,
    which are passed in. It is proved against `LastOverride`, a reference
    definition saying that the last contributing entry wins.
- `wrappers.dfy`: `Option` and `Result`.

Two behaviours of the code worth stating:

- **A deployment with no `Available` condition passes the readiness check.**
  Only an `Available` condition whose status is not `True` fails it.
- **Which components are deleted depends on the current spec of the instance
  being deleted.** It does not depend on whether they were ever enabled.

## Model

| member | source | states |
|---|---|---|
| Common.Configured | knative-operator/pkg/common/util.go:16-29 | the config is non-nil afterwards; the result is true exactly when `key` was absent under `cm`; the key then maps to `value` in a section that exists, otherwise its old value (and the whole section) is kept; other sections are unchanged |
| Common.Configure | knative-operator/pkg/common/util.go:16-29 | the in-place update of `ks.config` and the returned flag are exactly `Configured` of the old config |
| Common.ConfigureFrame | knative-operator/pkg/common/util.go:20-24 | no other (section, key) entry changes |
| Common.ConfigureIdempotent | knative-operator/pkg/common/util.go:20-28 | a second call with the same arguments returns false and leaves the map as the first call left it |
| Common.ConfigureTwiceOnNil | knative-operator/pkg/common/util.go:17-28 | on a nil config the first call returns true, the second false, both leave the same map, holding `value` |
| Common.Cut | knative-operator/pkg/common/util.go:36-38 | `SplitN(s, sep, 2)`: with `sep` present, `s` is the part before (which has no `sep`), `sep`, then the rest; without it, `s` alone |
| Common.CutJoin | knative-operator/pkg/common/util.go:36 | splitting `a + sep + b`, `a` free of `sep`, gives back `a` and `b` |
| Common.CutImageName | knative-operator/pkg/common/util.go:38 | for a name starting `IMAGE_`, the text after the first `_` is the text after the prefix |
| Common.ImageOverride | knative-operator/pkg/common/util.go:36-41 | an entry contributes only as `IMAGE_` + key + `=` + value, with no `=` in the key and a non-empty value |
| Common.ImageOverrideOf | knative-operator/pkg/common/util.go:36-41 | `IMAGE_<k>=<v>` yields `(k, v)` unless `v` is empty; `k` keeps any later `_`, `v` any later `=` |
| Common.NonImageEntryIgnored | knative-operator/pkg/common/util.go:37 | an entry whose name does not start with `IMAGE_` contributes nothing |
| Common.BuildImageOverrideMap | knative-operator/pkg/common/util.go:32-45 | the map has a key exactly when some entry contributes it, with the value of the last such entry |
| Common.LaterEntryWins | knative-operator/pkg/common/util.go:35-42 | of two entries with the same key anywhere in the list, the later one's value is kept, as long as no entry after it gives that key |
| Common.EmptyValueSkipped | knative-operator/pkg/common/util.go:39-41 | an entry with an empty value, wherever it stands, leaves the map as it would be without it |
| StringSets.LessTotal | knative-operator/pkg/controller/knativekafka/knativekafka_controller.go:339 | Go's string order is total: of two different strings one is less |
| StringSets.LessTransitive | knative-operator/pkg/controller/knativekafka/knativekafka_controller.go:339 | Go's string order is transitive |
| StringSets.Insert | knative-operator/pkg/controller/knativekafka/knativekafka_controller.go:337-339 | inserting into a strictly sorted list keeps it strictly sorted and adds exactly the new element |
| StringSets.SortedSet | knative-operator/pkg/controller/knativekafka/knativekafka_controller.go:337-339 | a strictly sorted list of exactly the given strings |
| StringSets.SortedUnique | knative-operator/pkg/controller/knativekafka/knativekafka_controller.go:339 | two strictly sorted lists with the same members are equal, so the listing of a set is unique |
| StringSets.List | knative-operator/pkg/controller/knativekafka/knativekafka_controller.go:339 | `sets.String.List()`: strictly sorted (so duplicate-free) and holding exactly the set's members |
| KafkaApi.InitializeConditions | knative-operator/pkg/controller/knativekafka/knativekafka_controller.go:149 | afterwards the install condition is set; a status already initialised is kept as it is |
| KafkaApi.Instance.constructor | knative-operator/pkg/controller/knativekafka/knativekafka_controller.go:130 | the deep copy holds the fetched object's value |
| KafkaApi.Instance.InitializeStatusConditions | knative-operator/pkg/controller/knativekafka/knativekafka_controller.go:149 | initialises the status conditions of the copy in place, nothing else |
| KafkaApi.Instance.SetFinalizers | knative-operator/pkg/controller/knativekafka/knativekafka_controller.go:172 | replaces the finalizer list and nothing else |
| KafkaApi.Instance.MarkStatusInstallFailed | knative-operator/pkg/controller/knativekafka/knativekafka_controller.go:179 | sets the install condition to failed with the message, nothing else |
| KafkaApi.Instance.MarkStatusInstallSucceeded | knative-operator/pkg/controller/knativekafka/knativekafka_controller.go:182 | sets the install condition to succeeded, nothing else |
| Cluster.TransformResource | knative-operator/pkg/controller/knativekafka/knativekafka_controller.go:234-237 | the transformer choice for one resource: identity and body are kept, the owner annotations are always set, and the owner reference is set for KafkaChannel only (KafkaSource keeps its own, 275-277) |
| Cluster.Transformed | knative-operator/pkg/controller/knativekafka/knativekafka_controller.go:234-239 | a new copy of the manifest, resource by resource transformed, same length and order |
| Cluster.Client.Get | knative-operator/pkg/controller/knativekafka/knativekafka_controller.go:113 | the client's Get changes only the trace, as `GetS` says |
| Cluster.Client.Update | knative-operator/pkg/controller/knativekafka/knativekafka_controller.go:173 | writes finalizers and spec of a stored object (removing it when it is being deleted and no finalizer is left), as `UpdateS` says |
| Cluster.Client.UpdateStatus | knative-operator/pkg/controller/knativekafka/knativekafka_controller.go:134 | writes only the status of a stored object, as `UpdateStatusS` says |
| Cluster.Client.Load | knative-operator/pkg/controller/knativekafka/knativekafka_controller.go:229 | loading a component's manifest (also line 270) returns that component's resources or the failed call's error, and changes only the trace, as `LoadS` says |
| Cluster.Client.Transform | knative-operator/pkg/controller/knativekafka/knativekafka_controller.go:239 | `manifest.Transform` (also line 279) returns every resource transformed by `TransformResource` or the failed call's error, and changes only the trace, as `TransformS` says |
| Cluster.Client.Apply | knative-operator/pkg/controller/knativekafka/knativekafka_controller.go:213 | the loop over the resources equals `ApplyS`: create-or-update in order, stopping at the first failure |
| Cluster.Client.Delete | knative-operator/pkg/controller/knativekafka/knativekafka_controller.go:371 | the loop equals `DeleteS`: deletes in order, absent resources are no error, stops at the first failure |
| Cluster.Client.GetDeployment | knative-operator/pkg/controller/knativekafka/knativekafka_controller.go:302 | reads a deployment's conditions, not found when absent, as `GetDeploymentS` says |
| Controller.Deployments | knative-operator/pkg/controller/knativekafka/knativekafka_controller.go:300 | keeps exactly the resources of kind Deployment |
| Controller.Available | knative-operator/pkg/controller/knativekafka/knativekafka_controller.go:306-309 | a deployment passes exactly when every `Available` condition it carries has status `True`; one with no `Available` condition passes |
| Controller.Without | knative-operator/pkg/controller/knativekafka/knativekafka_controller.go:338 | the members of the list other than the given one |
| Controller.RemainingFinalizers | knative-operator/pkg/controller/knativekafka/knativekafka_controller.go:337-339 | strictly sorted, and holding exactly the re-fetched finalizers other than the controller's |
| Controller.ComponentManifest | knative-operator/pkg/controller/knativekafka/knativekafka_controller.go:228-245 | load then transform, both failures reported as a failure to load, as `ManifestS` says |
| Controller.CheckDeployments | knative-operator/pkg/controller/knativekafka/knativekafka_controller.go:298-313 | the two loops equal `CheckDeploymentsS` |
| Controller.InstallComponent | knative-operator/pkg/controller/knativekafka/knativekafka_controller.go:206-221 | manifest, apply, readiness, with the source's error contexts, as `InstallComponentS` says |
| Controller.ApplyKnativeKafka | knative-operator/pkg/controller/knativekafka/knativekafka_controller.go:186-204 | Channel if enabled, then Source if enabled, as `ApplyKnativeKafkaS` says |
| Controller.DeleteComponent | knative-operator/pkg/controller/knativekafka/knativekafka_controller.go:363-389 | manifest, then delete, with the source's error contexts, as `DeleteComponentS` says |
| Controller.DeleteKnativeKafka | knative-operator/pkg/controller/knativekafka/knativekafka_controller.go:347-361 | Channel if enabled, then Source if enabled, as `DeleteKnativeKafkaS` says |
| Controller.Reconciler.Reconcile | knative-operator/pkg/controller/knativekafka/knativekafka_controller.go:107-146 | the method's effect on the cluster and its result equal `ReconcileS` |
| Controller.Reconciler.ReconcileKnativeKafka | knative-operator/pkg/controller/knativekafka/knativekafka_controller.go:148-162 | the loop over the stages, returning at the first error, equals `ReconcileKnativeKafkaS` |
| Controller.Reconciler.RunStage | knative-operator/pkg/controller/knativekafka/knativekafka_controller.go:156-157 | runs one stage's method, as `StageS` says |
| Controller.Reconciler.EnsureFinalizers | knative-operator/pkg/controller/knativekafka/knativekafka_controller.go:165-174 | the search loop and the append-and-update equal `EnsureFinalizersS` |
| Controller.Reconciler.InstallKnativeKafka | knative-operator/pkg/controller/knativekafka/knativekafka_controller.go:177-184 | apply, then mark the status, as `InstallKnativeKafkaS` says |
| Controller.Reconciler.Delete | knative-operator/pkg/controller/knativekafka/knativekafka_controller.go:316-345 | the set editing and `List()` give `RemainingFinalizers`; the method equals `FinalizeS` |
| Properties.ApplyShape | knative-operator/pkg/controller/knativekafka/knativekafka_controller.go:213 | applying issues only that component's apply calls and leaves the KnativeKafka store alone |
| Properties.DeleteShape | knative-operator/pkg/controller/knativekafka/knativekafka_controller.go:371 | deleting issues only that component's delete calls and leaves the store alone |
| Properties.DeploymentsCheckShape | knative-operator/pkg/controller/knativekafka/knativekafka_controller.go:300-311 | the readiness check only reads deployments: store and live resources unchanged |
| Properties.ManifestShape | knative-operator/pkg/controller/knativekafka/knativekafka_controller.go:228-245 | building a manifest only loads and transforms; nothing in the cluster changes |
| Properties.InstallComponentShape | knative-operator/pkg/controller/knativekafka/knativekafka_controller.go:206-221 | installing a component issues only that component's calls, never writes a KnativeKafka, and issues them in order: manifest load and transform, then applies, then deployment Gets. A failed manifest issues no apply, and a failed apply issues no deployment Get |
| Properties.DeleteComponentShape | knative-operator/pkg/controller/knativekafka/knativekafka_controller.go:363-376 | deleting a component issues only that component's load, transform and delete calls, the manifest calls before the deletes; a failed manifest issues no delete |
| Properties.ApplyKnativeKafkaOrder | knative-operator/pkg/controller/knativekafka/knativekafka_controller.go:186-204 | all KafkaChannel calls come before all KafkaSource calls; a disabled component gets no call; after a Channel failure Source gets none; the error names the component |
| Properties.DeleteKnativeKafkaOrder | knative-operator/pkg/controller/knativekafka/knativekafka_controller.go:347-361 | the same for deletion, decided from the given instance's spec |
| Properties.EnsureFinalizersSpec | knative-operator/pkg/controller/knativekafka/knativekafka_controller.go:165-174 | with the finalizer present: no call, nothing changes; otherwise exactly one Update carrying the list with the finalizer appended at the end, succeeding exactly when the call does not fail and the object exists. On success the list is stored; on failure the store is unchanged. A second run is a no-op |
| Properties.InstallOutcomeInStatus | knative-operator/pkg/controller/knativekafka/knativekafka_controller.go:177-184 | the apply error is returned and recorded as install-failed with its text; success is recorded as install-succeeded; nothing else of the instance changes |
| Properties.ReconcileKnativeKafkaOutcome | knative-operator/pkg/controller/knativekafka/knativekafka_controller.go:148-184 | the finalizer Update, when needed, is the first call. If it fails it is the only call, `ensureFinalizers`' own error is returned and the status is only initialised. Otherwise `applyKnativeKafka`'s error is returned and recorded in the status |
| Properties.FinalizeWithoutFinalizer | knative-operator/pkg/controller/knativekafka/knativekafka_controller.go:317-322 | without the controller's finalizer the deletion path does nothing and succeeds |
| Properties.CleanupFailureKeepsFinalizer | knative-operator/pkg/controller/knativekafka/knativekafka_controller.go:324-328 | if deleting the components fails there is no re-fetch and no Update, the store is unchanged and the wrapped error is returned |
| Properties.FinalizerRemoval | knative-operator/pkg/controller/knativekafka/knativekafka_controller.go:330-345 | after the components are gone the object is re-fetched; the Update carries the re-fetched list, sorted, duplicate-free, without the controller's finalizer and keeping every other one; a failed Update leaves the store unchanged |
| Properties.FinalizeCalls | knative-operator/pkg/controller/knativekafka/knativekafka_controller.go:316-345 | the deletion path issues only Gets, Updates of the KnativeKafka and component deletes |
| Properties.FailedFinalizeKeepsStore | knative-operator/pkg/controller/knativekafka/knativekafka_controller.go:326-343 | any failed deletion attempt leaves the store, and so the finalizer, as it was |
| Properties.ReconcileFetchFailure | knative-operator/pkg/controller/knativekafka/knativekafka_controller.go:112-123 | a missing object ends the reconcile with no error; a failed Get returns its error; either way nothing else is called |
| Properties.ReconcileDeleting | knative-operator/pkg/controller/knativekafka/knativekafka_controller.go:126-128 | an object marked for deletion is handed to the deletion path |
| Properties.DeletionPathOnly | knative-operator/pkg/controller/knativekafka/knativekafka_controller.go:125-128 | for such an object nothing is applied, no deployment is checked and no status is written |
| Properties.ReconcileNormal | knative-operator/pkg/controller/knativekafka/knativekafka_controller.go:130-145 | the stages' error is returned, unless the status needed writing and the write failed, which returns the wrapped write error |
| Properties.StatusStep | knative-operator/pkg/controller/knativekafka/knativekafka_controller.go:133-137 | a status write is issued exactly when the status changed, and it is the last call; the stages' error is returned when the status is unchanged or its write succeeds, the wrapped write error when the write fails |
| Properties.StatusWrittenWhenChanged | knative-operator/pkg/controller/knativekafka/knativekafka_controller.go:130-145 | on the normal path: a status write exactly when the reconciled status differs from the fetched one, carrying it, issued last. The stages' error is returned when the status is unchanged or its write succeeds; a failed write returns its error wrapped as "failed to update status" |
| Properties.ReadinessVerdict | knative-operator/pkg/controller/knativekafka/knativekafka_controller.go:298-313 | the check succeeds exactly when every deployment, in order, is found and has no `Available` condition that is not `True`; otherwise it returns the error of the first that fails; the calls issued are exactly one Get per deployment checked, in order, up to and including the first failure |
| Properties.AvailableStep | knative-operator/pkg/controller/knativekafka/knativekafka_controller.go:306-310 | the condition loop one condition at a time: a further condition keeps the verdict unless it is an `Available` condition whose status is not `True`; no conditions pass |
| Properties.ReadinessPass | knative-operator/pkg/controller/knativekafka/knativekafka_controller.go:300-312 | the success half of the verdict: the trace grows by exactly the Gets of every deployment, in order |
| Properties.ReadinessFail | knative-operator/pkg/controller/knativekafka/knativekafka_controller.go:303-309 | the failure half: the first failing deployment's error, the trace growing by exactly the Gets of the deployments up to and including it, in order |
| Properties.ManifestOwnership | knative-operator/pkg/controller/knativekafka/knativekafka_controller.go:228-285 | each KafkaChannel resource gets the owner reference and annotations, each KafkaSource resource the annotations only; identity, body and order are kept |
| Properties.DeploymentsAppend | knative-operator/pkg/controller/knativekafka/knativekafka_controller.go:300 | the Deployment filter distributes over concatenation, so manifest order is kept |
| Properties.SecondUnavailableFails | knative-operator/pkg/controller/knativekafka/knativekafka_controller.go:300-311 | of two deployments the second reporting `Available=False`, the check fails naming it after checking both, skipping a non-Deployment between them |
| Properties.WrittenAppend | knative-operator/pkg/controller/knativekafka/knativekafka_controller.go:213 | applying `a + b` is applying `a` then `b` |
| Properties.WrittenTwice | knative-operator/pkg/controller/knativekafka/knativekafka_controller.go:213 | applying the same resources again changes nothing |
| Properties.ApplyQuiet | knative-operator/pkg/controller/knativekafka/knativekafka_controller.go:213 | with nothing failing, apply writes every resource |
| Properties.DeleteQuiet | knative-operator/pkg/controller/knativekafka/knativekafka_controller.go:371 | with nothing failing, delete removes exactly the resources' identities |
| Properties.ReadinessQuiet | knative-operator/pkg/controller/knativekafka/knativekafka_controller.go:298-313 | with nothing failing, the verdict is the first missing or unavailable deployment, whatever came before |
| Properties.InstallComponentQuiet | knative-operator/pkg/controller/knativekafka/knativekafka_controller.go:206-221 | with nothing failing, a component's whole transformed manifest is applied and its readiness reported |
| Properties.ApplyKnativeKafkaQuiet | knative-operator/pkg/controller/knativekafka/knativekafka_controller.go:186-204 | with nothing failing, the outcome and the resources written depend only on the environment, key and spec |
| Properties.QuietEnsureFinalizers | knative-operator/pkg/controller/knativekafka/knativekafka_controller.go:165-174 | with nothing failing, the stored finalizer list ends up holding the controller's finalizer, appended only if it was missing |
| Properties.FirstStages | knative-operator/pkg/controller/knativekafka/knativekafka_controller.go:148-184 | with nothing failing, the stages add the finalizer, install and record the outcome |
| Properties.QuietStatusStep | knative-operator/pkg/controller/knativekafka/knativekafka_controller.go:133-137 | with nothing failing, the reconciled status ends up stored |
| Properties.FirstReconcile | knative-operator/pkg/controller/knativekafka/knativekafka_controller.go:130-145 | with nothing failing, a reconcile stores the finalizer and the recorded outcome and returns the install outcome |
| Properties.SettledReconcile | knative-operator/pkg/controller/knativekafka/knativekafka_controller.go:130-145 | on an object already holding the finalizer and its outcome, a reconcile writes no KnativeKafka and leaves the store unchanged |
| Properties.ReconciledStatusIdempotent | knative-operator/pkg/controller/knativekafka/knativekafka_controller.go:149-182 | initialising and marking an already marked status again changes nothing |
| Properties.ReconcileIdempotent | knative-operator/pkg/controller/knativekafka/knativekafka_controller.go:107-146 | with nothing failing, a second reconcile returns the same result, writes no KnativeKafka and leaves store and live resources as the first did |
| Properties.TransformKeepsIds | knative-operator/pkg/controller/knativekafka/knativekafka_controller.go:234-239 | transforming keeps every resource's identity |
| Properties.DeleteComponentQuiet | knative-operator/pkg/controller/knativekafka/knativekafka_controller.go:363-389 | with nothing failing, a component's manifest resources are removed |
| Properties.DeleteKnativeKafkaQuiet | knative-operator/pkg/controller/knativekafka/knativekafka_controller.go:347-361 | with nothing failing, exactly the enabled components' resources are removed |
| Properties.FinalizeQuiet | knative-operator/pkg/controller/knativekafka/knativekafka_controller.go:316-345 | with nothing failing, the components are removed and the finalizer with them; an object left without finalizers is gone |
| Properties.DeletionCompletes | knative-operator/pkg/controller/knativekafka/knativekafka_controller.go:316-345 | with nothing failing, deletion completes and a further reconcile changes nothing |
| Properties.DeletionRetried | knative-operator/pkg/controller/knativekafka/knativekafka_controller.go:324-345 | after a failed deletion attempt, once calls stop failing the next reconcile deletes the components again and removes the finalizer |

## Left out

- `Add`, `add` and `newReconciler` (controller-runtime wiring and watch registration) are not modelled. They are framework plumbing.
- The reconciler's `scheme` field is not modelled: nothing in the reconciler reads it.
- The Kubernetes client and the manifestival library are modelled as abstract fallible operations over the world.
  - Apply is a create-or-update per resource in manifest order. Delete removes resources in manifest order, and an absent one is no error.
  - The library's own ordering is not modelled, nor are its merge semantics or server-side defaults.
- `mf.InjectOwner` and `SetOwnerAnnotations` are represented by two markers, `ownerRef` and `ownerAnnotation`, on each resource. The file that defines `SetOwnerAnnotations` is not part of this model.
- The manifest paths come from environment variables and the manifests are read from disk. Both manifests are fixed inputs of the environment.
- Logging is dropped everywhere, along with the commented-out readiness gauge.
- The status lifecycle (`InitializeConditions`, `MarkInstallFailed`, `MarkInstallSucceeded`) is defined in a file that is not part of this model. Its semantics are modelled as one install condition, so the other conditions and the aggregated Ready condition are not modelled.
- `equality.Semantic.DeepEqual` is modelled as structural equality of the status.
- Errors from the API server carry the fault oracle's text. The NotFound text is approximated.
- `%q` is rendered as plain double quotes, with no escaping.
- The returned `reconcile.Result` is always empty and is not modelled.
- Cluster.Client.Update: does not decode the server's response back into `instance` (line 173). The install stage goes on with the in-memory instance as `ensureFinalizers` left it. The model does not capture fields that the response would overwrite (the resource version, and a status the server holds that differs from the in-memory one).
- The controller's split client is not modelled: reads from the cache, concurrent writers and optimistic-concurrency conflicts are all represented by failed calls.
- `annotateTimestamp` is not modelled, because it depends on the wall clock.
- `os.Environ()` is not called: the entries are a parameter of `Common.BuildImageOverrideMap`.
- Common.BuildImageOverrideMap: requires every entry to contain `=` or not start with `IMAGE_`. The source indexes `pair[1]` without a check and panics on an `IMAGE_` entry with no `=`. The model excludes that input rather than modelling the panic.
- Common.Configure: the KnativeServing is reduced to its `Spec.Config` map.
- Properties.ReconcileIdempotent, Properties.DeletionCompletes and the other `...Quiet` lemmas assume that no call fails from the given world on. The lemmas about single steps hold whatever fails.
- The properties of the store assume each stored KnativeKafka carries the key it is stored under (`WellKeyed`), as the API server guarantees.
