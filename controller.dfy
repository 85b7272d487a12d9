/**
  The KnativeKafka reconciler of
  knative-operator/pkg/controller/knativekafka/knativekafka_controller.go.

  Each operation appears twice: as a function from the world before to the
  world after and the value returned (the `...S` functions, the
  specification), and as the imperative method of the source, proved to
  behave exactly as its function says.
 */
module Controller {
  import opened Wrappers
  import opened KafkaApi
  import opened Cluster
  import StringSets

  /** Kept as "knative-kafka-openshift" for compatibility with earlier versions. */
  const FinalizerName: string := "knative-kafka-openshift"

  function ComponentName(c: Component): string
  {
    match c
    case KafkaChannel => "KafkaChannel"
    case KafkaSource => "KafkaSource"
  }

  // ---------------------------------------------------------------------------
  // Specification: one function per operation of the reconciler.
  // ---------------------------------------------------------------------------

  /** `kafkaChannelManifest` / `kafkaSourceManifest`: load, then transform. */
  function ManifestS(w: World, c: Component, owner: Key): Out<Result<seq<Resource>, Error>>
  {
    var context := "failed to load " + ComponentName(c) + " manifest";
    var l := LoadS(w, c);
    if l.value.Failure? then Out(l.world, Failure(Wrapped(context, l.value.error)))
    else
      var t := TransformS(l.world, c, owner, l.value.value);
      if t.value.Failure? then Out(t.world, Failure(Wrapped(context, t.value.error)))
      else t
  }

  /** `manifest.Filter(mf.ByKind("Deployment")).Resources()`, in manifest order. */
  function Deployments(rs: seq<Resource>): (ds: seq<Resource>)
    ensures forall r :: r in ds <==> r in rs && r.kind == DeploymentKind
    ensures |ds| <= |rs|
  {
    if rs == [] then []
    else if rs[0].kind == DeploymentKind then [rs[0]] + Deployments(rs[1..])
    else Deployments(rs[1..])
  }

  /** The readiness verdict for one deployment: no `Available` condition whose
      status is not `True`. A deployment with no `Available` condition passes. */
  function Available(conds: seq<DeploymentCondition>): (ok: bool)
    ensures ok <==> forall d :: d in conds && d.conditionType == DeploymentAvailable ==> d.status == ConditionTrue
    ensures (forall d :: d in conds ==> d.conditionType != DeploymentAvailable) ==> ok
  {
    forall i :: 0 <= i < |conds| && conds[i].conditionType == DeploymentAvailable ==> conds[i].status == ConditionTrue
  }

  function DeploymentKey(r: Resource): Key
  {
    Key(r.namespace, r.name)
  }

  /** The loop of `checkDeployments` over the filtered deployments. */
  function DeploymentsCheckS(w: World, c: Component, ds: seq<Resource>): Out<Option<Error>>
    decreases |ds|
  {
    if ds == [] then Out(w, None)
    else
      var g := GetDeploymentS(w, c, DeploymentKey(ds[0]));
      if g.value.Failure? then Out(g.world, Some(g.value.error))
      else if !Available(g.value.value) then Out(g.world, Some(NotReady(ds[0].name, ds[0].namespace)))
      else DeploymentsCheckS(g.world, c, ds[1..])
  }

  /** `checkDeployments`. */
  function CheckDeploymentsS(w: World, c: Component, m: seq<Resource>): Out<Option<Error>>
  {
    DeploymentsCheckS(w, c, Deployments(m))
  }

  /** `installKnativeKafkaChannel` / `installKnativeKafkaSource`. */
  function InstallComponentS(w: World, c: Component, inst: KnativeKafka): Out<Option<Error>>
  {
    var m := ManifestS(w, c, inst.key);
    if m.value.Failure? then
      Out(m.world, Some(Wrapped("failed to load or transform " + ComponentName(c) + " manifest", m.value.error)))
    else
      var a := ApplyS(m.world, c, m.value.value);
      if a.value.Some? then
        Out(a.world, Some(Wrapped("failed to apply " + ComponentName(c) + " manifest", a.value.value)))
      else
        var d := CheckDeploymentsS(a.world, c, m.value.value);
        if d.value.Some? then Out(d.world, Some(Wrapped("failed to check deployments", d.value.value)))
        else d
  }

  /** `applyKnativeKafka`: Channel if enabled, then Source if enabled; a
      disabled component is left alone. */
  function ApplyKnativeKafkaS(w: World, inst: KnativeKafka): Out<Option<Error>>
  {
    var ch := if inst.spec.channel.enabled then InstallComponentS(w, KafkaChannel, inst) else Out(w, None);
    if ch.value.Some? then Out(ch.world, Some(Wrapped("unable to install Knative KafkaChannel", ch.value.value)))
    else
      var src := if inst.spec.source.enabled then InstallComponentS(ch.world, KafkaSource, inst) else Out(ch.world, None);
      if src.value.Some? then Out(src.world, Some(Wrapped("unable to install Knative KafkaSource", src.value.value)))
      else src
  }

  /** The in-memory instance after a stage, and the stage's error. */
  datatype Staged = Staged(instance: KnativeKafka, err: Option<Error>)

  /** `ensureFinalizers`. */
  function EnsureFinalizersS(w: World, inst: KnativeKafka): Out<Staged>
  {
    if FinalizerName in inst.finalizers then Out(w, Staged(inst, None))
    else
      var inst' := inst.(finalizers := inst.finalizers + [FinalizerName]);
      var u := UpdateS(w, inst');
      Out(u.world, Staged(inst', u.value))
  }

  /** `installKnativeKafka`: the install outcome is recorded in the status. */
  function InstallKnativeKafkaS(w: World, inst: KnativeKafka): Out<Staged>
  {
    var a := ApplyKnativeKafkaS(w, inst);
    if a.value.Some? then
      Out(a.world, Staged(inst.(status := MarkInstallFailed(inst.status, Message(a.value.value))), a.value))
    else
      Out(a.world, Staged(inst.(status := MarkInstallSucceeded(inst.status)), None))
  }

  /** The entries of the `stages` slice. */
  datatype Stage = EnsureFinalizersStage | InstallStage

  const Stages: seq<Stage> := [EnsureFinalizersStage, InstallStage]

  function StageS(w: World, inst: KnativeKafka, s: Stage): Out<Staged>
  {
    match s
    case EnsureFinalizersStage => EnsureFinalizersS(w, inst)
    case InstallStage => InstallKnativeKafkaS(w, inst)
  }

  /** The stages in order, stopping at the first error. */
  function RunStagesS(w: World, inst: KnativeKafka, stages: seq<Stage>): Out<Staged>
    decreases |stages|
  {
    if stages == [] then Out(w, Staged(inst, None))
    else
      var o := StageS(w, inst, stages[0]);
      if o.value.err.Some? then o else RunStagesS(o.world, o.value.instance, stages[1..])
  }

  /** `reconcileKnativeKafka`. */
  function ReconcileKnativeKafkaS(w: World, inst: KnativeKafka): Out<Staged>
  {
    RunStagesS(w, inst.(status := InitializeConditions(inst.status)), Stages)
  }

  /** `deleteKnativeKafkaChannel` / `deleteKnativeKafkaSource`. */
  function DeleteContext(c: Component): string
  {
    match c
    case KafkaChannel => "failed to delete Knative KafkaChannel manifest"
    case KafkaSource => "failed to delete KafkaSource manifest"
  }

  function DeleteComponentS(w: World, c: Component, inst: KnativeKafka): Out<Option<Error>>
  {
    var m := ManifestS(w, c, inst.key);
    if m.value.Failure? then
      Out(m.world, Some(Wrapped("failed to load or transform " + ComponentName(c) + " manifest", m.value.error)))
    else
      var d := DeleteS(m.world, c, m.value.value);
      if d.value.Some? then Out(d.world, Some(Wrapped(DeleteContext(c), d.value.value)))
      else d
  }

  /** `deleteKnativeKafka`: Channel if enabled, then Source if enabled. */
  function DeleteKnativeKafkaS(w: World, inst: KnativeKafka): Out<Option<Error>>
  {
    var ch := if inst.spec.channel.enabled then DeleteComponentS(w, KafkaChannel, inst) else Out(w, None);
    if ch.value.Some? then Out(ch.world, Some(Wrapped("unable to delete Knative KafkaChannel", ch.value.value)))
    else
      var src := if inst.spec.source.enabled then DeleteComponentS(ch.world, KafkaSource, inst) else Out(ch.world, None);
      if src.value.Some? then Out(src.world, Some(Wrapped("unable to delete Knative KafkaSource", src.value.value)))
      else src
  }

  function Without(fs: seq<string>, f: string): (r: seq<string>)
    ensures forall y :: y in r <==> y in fs && y != f
  {
    if fs == [] then []
    else if fs[|fs| - 1] == f then Without(fs[..|fs| - 1], f)
    else Without(fs[..|fs| - 1], f) + [fs[|fs| - 1]]
  }

  /** The finalizer list written back by `delete`: the re-fetched list as a
      set, without the controller's finalizer, sorted. */
  function RemainingFinalizers(fs: seq<string>): (r: seq<string>)
    ensures StringSets.StrictlySorted(r)
    ensures forall y :: y in r <==> y in fs && y != FinalizerName
  {
    StringSets.SortedSet(Without(fs, FinalizerName))
  }

  /** `delete`: the finalizer protocol. */
  function FinalizeS(w: World, inst: KnativeKafka): Out<Option<Error>>
  {
    if FinalizerName !in inst.finalizers then Out(w, None)
    else
      var d := DeleteKnativeKafkaS(w, inst);
      if d.value.Some? then Out(d.world, Some(Wrapped("failed to delete kourier", d.value.value)))
      else
        var g := GetS(d.world, inst.key);
        if g.value.Failure? then Out(g.world, Some(Wrapped("failed to refetch KnativeKafka", g.value.error)))
        else
          var refetched := g.value.value;
          var u := UpdateS(g.world, refetched.(finalizers := RemainingFinalizers(refetched.finalizers)));
          if u.value.Some? then
            Out(u.world, Some(Wrapped("failed to update KnativeKafka with removed finalizer", u.value.value)))
          else u
  }

  /** `Reconcile`. */
  function ReconcileS(w: World, key: Key): Out<Option<Error>>
  {
    var g := GetS(w, key);
    if g.value.Failure? then Out(g.world, if g.value.error.NotFound? then None else Some(g.value.error))
    else
      var original := g.value.value;
      if original.deleting then FinalizeS(g.world, original)
      else
        var r := ReconcileKnativeKafkaS(g.world, original);
        if original.status != r.value.instance.status then
          var u := UpdateStatusS(r.world, r.value.instance);
          if u.value.Some? then Out(u.world, Some(Wrapped("failed to update status", u.value.value)))
          else Out(u.world, r.value.err)
        else Out(r.world, r.value.err)
  }

  // ---------------------------------------------------------------------------
  // The reconciler.
  // ---------------------------------------------------------------------------

  method ComponentManifest(c: Component, instance: KnativeKafka, api: Client) returns (r: Result<seq<Resource>, Error>)
    modifies api
    ensures Out(api.State(), r) == ManifestS(old(api.State()), c, instance.key)
  {
    var context := "failed to load " + ComponentName(c) + " manifest";
    var manifest := api.Load(c);
    if manifest.Failure? {
      return Failure(Wrapped(context, manifest.error));
    }
    var transformed := api.Transform(c, instance.key, manifest.value);
    if transformed.Failure? {
      return Failure(Wrapped(context, transformed.error));
    }
    return transformed;
  }

  method CheckDeployments(c: Component, manifest: seq<Resource>, api: Client) returns (err: Option<Error>)
    modifies api
    ensures Out(api.State(), err) == CheckDeploymentsS(old(api.State()), c, manifest)
  {
    var ds := Deployments(manifest);
    var i := 0;
    while i < |ds|
      invariant 0 <= i <= |ds|
      invariant CheckDeploymentsS(old(api.State()), c, manifest) == DeploymentsCheckS(api.State(), c, ds[i..])
    {
      assert ds[i..][0] == ds[i] && ds[i..][1..] == ds[i + 1..];
      var u := ds[i];
      var deployment := api.GetDeployment(c, Key(u.namespace, u.name));
      if deployment.Failure? {
        return Some(deployment.error);
      }
      var conditions := deployment.value;
      for j := 0 to |conditions|
        invariant forall k :: 0 <= k < j && conditions[k].conditionType == DeploymentAvailable ==> conditions[k].status == ConditionTrue
      {
        if conditions[j].conditionType == DeploymentAvailable && conditions[j].status != ConditionTrue {
          return Some(NotReady(u.name, u.namespace));
        }
      }
      i := i + 1;
    }
    return None;
  }

  method InstallComponent(c: Component, instance: KnativeKafka, api: Client) returns (err: Option<Error>)
    modifies api
    ensures Out(api.State(), err) == InstallComponentS(old(api.State()), c, instance)
  {
    var manifest := ComponentManifest(c, instance, api);
    if manifest.Failure? {
      return Some(Wrapped("failed to load or transform " + ComponentName(c) + " manifest", manifest.error));
    }
    var e := api.Apply(c, manifest.value);
    if e.Some? {
      return Some(Wrapped("failed to apply " + ComponentName(c) + " manifest", e.value));
    }
    e := CheckDeployments(c, manifest.value, api);
    if e.Some? {
      return Some(Wrapped("failed to check deployments", e.value));
    }
    return None;
  }

  method ApplyKnativeKafka(instance: KnativeKafka, api: Client) returns (err: Option<Error>)
    modifies api
    ensures Out(api.State(), err) == ApplyKnativeKafkaS(old(api.State()), instance)
  {
    if instance.spec.channel.enabled {
      var e := InstallComponent(KafkaChannel, instance, api);
      if e.Some? {
        return Some(Wrapped("unable to install Knative KafkaChannel", e.value));
      }
    }
    if instance.spec.source.enabled {
      var e := InstallComponent(KafkaSource, instance, api);
      if e.Some? {
        return Some(Wrapped("unable to install Knative KafkaSource", e.value));
      }
    }
    return None;
  }

  method DeleteComponent(c: Component, instance: KnativeKafka, api: Client) returns (err: Option<Error>)
    modifies api
    ensures Out(api.State(), err) == DeleteComponentS(old(api.State()), c, instance)
  {
    var manifest := ComponentManifest(c, instance, api);
    if manifest.Failure? {
      return Some(Wrapped("failed to load or transform " + ComponentName(c) + " manifest", manifest.error));
    }
    var e := api.Delete(c, manifest.value);
    if e.Some? {
      return Some(Wrapped(DeleteContext(c), e.value));
    }
    return None;
  }

  method DeleteKnativeKafka(instance: KnativeKafka, api: Client) returns (err: Option<Error>)
    modifies api
    ensures Out(api.State(), err) == DeleteKnativeKafkaS(old(api.State()), instance)
  {
    if instance.spec.channel.enabled {
      var e := DeleteComponent(KafkaChannel, instance, api);
      if e.Some? {
        return Some(Wrapped("unable to delete Knative KafkaChannel", e.value));
      }
    }
    if instance.spec.source.enabled {
      var e := DeleteComponent(KafkaSource, instance, api);
      if e.Some? {
        return Some(Wrapped("unable to delete Knative KafkaSource", e.value));
      }
    }
    return None;
  }

  class Reconciler {
    const client: Client

    constructor (client: Client)
      ensures this.client == client
    {
      this.client := client;
    }

    method Reconcile(key: Key) returns (err: Option<Error>)
      modifies client
      ensures Out(client.State(), err) == ReconcileS(old(client.State()), key)
    {
      var fetched := client.Get(key);
      if fetched.Failure? {
        if fetched.error.NotFound? {
          return None;
        }
        return Some(fetched.error);
      }
      var original := fetched.value;
      if original.deleting {
        err := Delete(original);
        return;
      }
      var instance := new Instance(original);
      var reconcileErr := ReconcileKnativeKafka(instance);
      if original.status != instance.status {
        var e := client.UpdateStatus(instance.Value());
        if e.Some? {
          return Some(Wrapped("failed to update status", e.value));
        }
      }
      return reconcileErr;
    }

    method ReconcileKnativeKafka(instance: Instance) returns (err: Option<Error>)
      modifies client, instance
      ensures Out(client.State(), Staged(instance.Value(), err))
              == ReconcileKnativeKafkaS(old(client.State()), old(instance.Value()))
    {
      instance.InitializeStatusConditions();
      var stages := Stages;
      for i := 0 to |stages|
        invariant ReconcileKnativeKafkaS(old(client.State()), old(instance.Value()))
                  == RunStagesS(client.State(), instance.Value(), stages[i..])
      {
        assert stages[i..][0] == stages[i] && stages[i..][1..] == stages[i + 1..];
        var e := RunStage(stages[i], instance);
        if e.Some? {
          return e;
        }
      }
      return None;
    }

    /** Calls the stage's method. */
    method RunStage(stage: Stage, instance: Instance) returns (err: Option<Error>)
      modifies client, instance
      ensures Out(client.State(), Staged(instance.Value(), err))
              == StageS(old(client.State()), old(instance.Value()), stage)
    {
      match stage
      case EnsureFinalizersStage => err := EnsureFinalizers(instance);
      case InstallStage => err := InstallKnativeKafka(instance);
    }

    method EnsureFinalizers(instance: Instance) returns (err: Option<Error>)
      modifies client, instance
      ensures Out(client.State(), Staged(instance.Value(), err))
              == EnsureFinalizersS(old(client.State()), old(instance.Value()))
    {
      var finalizers := instance.finalizers;
      for i := 0 to |finalizers|
        invariant FinalizerName !in finalizers[..i]
      {
        if finalizers[i] == FinalizerName {
          return None;
        }
      }
      assert finalizers[..|finalizers|] == finalizers;
      instance.SetFinalizers(instance.finalizers + [FinalizerName]);
      err := client.Update(instance.Value());
    }

    method InstallKnativeKafka(instance: Instance) returns (err: Option<Error>)
      modifies client, instance
      ensures Out(client.State(), Staged(instance.Value(), err))
              == InstallKnativeKafkaS(old(client.State()), old(instance.Value()))
    {
      err := ApplyKnativeKafka(instance.Value(), client);
      if err.Some? {
        instance.MarkStatusInstallFailed(Message(err.value));
        return;
      }
      instance.MarkStatusInstallSucceeded();
    }

    method Delete(instance: KnativeKafka) returns (err: Option<Error>)
      modifies client
      ensures Out(client.State(), err) == FinalizeS(old(client.State()), instance)
    {
      var finalizers := set f | f in instance.finalizers;
      if FinalizerName !in finalizers {
        return None;
      }
      var e := DeleteKnativeKafka(instance, client);
      if e.Some? {
        return Some(Wrapped("failed to delete kourier", e.value));
      }
      var fetched := client.Get(instance.key);
      if fetched.Failure? {
        return Some(Wrapped("failed to refetch KnativeKafka", fetched.error));
      }
      var refetched := new Instance(fetched.value);
      finalizers := set f | f in refetched.finalizers;
      finalizers := finalizers - {FinalizerName};
      var list := StringSets.List(finalizers);
      StringSets.SortedUnique(list, RemainingFinalizers(fetched.value.finalizers));
      refetched.SetFinalizers(list);
      e := client.Update(refetched.Value());
      if e.Some? {
        return Some(Wrapped("failed to update KnativeKafka with removed finalizer", e.value));
      }
      return None;
    }
  }
}
