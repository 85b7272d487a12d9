/**
  What the reconciler promises, proved about its specification functions:
  which calls each stage can issue and in what order, where the pipeline
  stops, how the finalizer list evolves, the readiness verdict, and that
  reconciling and deleting are idempotent when nothing fails.
 */
module Properties {
  import opened Wrappers
  import opened KafkaApi
  import opened Cluster
  import opened Controller
  import StringSets

  // ---------------------------------------------------------------------------
  // Classifying the calls a step issues.
  // ---------------------------------------------------------------------------

  datatype CallClass =
    | KafkaRead                  // Get of the KnativeKafka
    | FinalizerWrite             // Update of the KnativeKafka
    | StatusWrite                // Status().Update of the KnativeKafka
    | ManifestRead(c: Component) // load or transform of a manifest
    | Install(c: Component)      // apply of a manifest resource
    | Readiness(c: Component)    // Get of a deployment
    | Uninstall(c: Component)    // delete of a manifest resource

  function ClassOf(call: Call): CallClass
  {
    match call
    case GetKafka(_) => KafkaRead
    case UpdateKafka(_, _) => FinalizerWrite
    case UpdateKafkaStatus(_, _) => StatusWrite
    case LoadManifest(c) => ManifestRead(c)
    case TransformManifest(c) => ManifestRead(c)
    case ApplyResource(c, _) => Install(c)
    case GetDeployment(c, _) => Readiness(c)
    case DeleteResource(c, _) => Uninstall(c)
  }

  function InstallClasses(c: Component): set<CallClass>
  {
    {ManifestRead(c), Install(c), Readiness(c)}
  }

  function UninstallClasses(c: Component): set<CallClass>
  {
    {ManifestRead(c), Uninstall(c)}
  }

  /** `w'` is `w` after some calls: same environment, longer trace. */
  predicate Grows(w: World, w': World)
  {
    w'.env == w.env && |w.trace| <= |w'.trace| && w'.trace[..|w.trace|] == w.trace
  }

  /** The calls issued between `w` and `w'`. */
  function NewCalls(w: World, w': World): seq<Call>
    requires Grows(w, w')
  {
    w'.trace[|w.trace|..]
  }

  /** Every stored KnativeKafka carries the key it is stored under. */
  predicate WellKeyed(w: World)
  {
    forall k :: k in w.objects ==> w.objects[k].key == k
  }

  /** Every call issued between `w` and `w'` is of one of the classes. */
  predicate CallsIn(w: World, w': World, classes: set<CallClass>)
  {
    Grows(w, w') && forall i :: |w.trace| <= i < |w'.trace| ==> ClassOf(w'.trace[i]) in classes
  }

  lemma CallsInTrans(w1: World, w2: World, w3: World, s1: set<CallClass>, s2: set<CallClass>, s: set<CallClass>)
    requires CallsIn(w1, w2, s1) && CallsIn(w2, w3, s2) && s1 <= s && s2 <= s
    ensures CallsIn(w1, w3, s)
  {
    assert w3.trace[..|w2.trace|][..|w1.trace|] == w3.trace[..|w1.trace|];
    forall i | |w1.trace| <= i < |w2.trace| ensures w3.trace[i] == w2.trace[i] {
      assert w3.trace[..|w2.trace|][i] == w3.trace[i];
    }
  }

  lemma GrowsTrans(w1: World, w2: World, w3: World)
    requires Grows(w1, w2) && Grows(w2, w3)
    ensures Grows(w1, w3)
  {
    assert w3.trace[..|w2.trace|][..|w1.trace|] == w3.trace[..|w1.trace|];
  }

  lemma CallsInWeaken(w: World, w': World, s: set<CallClass>, s': set<CallClass>)
    requires CallsIn(w, w', s) && s <= s'
    ensures CallsIn(w, w', s')
  {
  }

  lemma CallsInRefl(w: World, s: set<CallClass>)
    ensures CallsIn(w, w, s)
  {
  }

  lemma IssueCalls(w: World, call: Call)
    ensures CallsIn(w, IssueS(w, call).world, {ClassOf(call)})
  {
    var w' := IssueS(w, call).world;
    assert w'.trace[..|w.trace|] == w.trace;
  }

  // ---------------------------------------------------------------------------
  // Shapes of the client calls and of the component steps.
  // ---------------------------------------------------------------------------

  lemma {:induction false} ApplyShape(w: World, c: Component, rs: seq<Resource>)
    ensures var o := ApplyS(w, c, rs);
            CallsIn(w, o.world, {Install(c)}) && o.world.objects == w.objects
    decreases |rs|
  {
    if rs == [] {
      CallsInRefl(w, {Install(c)});
    } else {
      var o := IssueS(w, ApplyResource(c, rs[0]));
      IssueCalls(w, ApplyResource(c, rs[0]));
      if o.value.None? {
        var w1 := o.world.(live := w.live[Id(rs[0]) := rs[0]]);
        ApplyShape(w1, c, rs[1..]);
        CallsInTrans(w, w1, ApplyS(w1, c, rs[1..]).world, {Install(c)}, {Install(c)}, {Install(c)});
      }
    }
  }

  lemma {:induction false} DeleteShape(w: World, c: Component, rs: seq<Resource>)
    ensures var o := DeleteS(w, c, rs);
            CallsIn(w, o.world, {Uninstall(c)}) && o.world.objects == w.objects
    decreases |rs|
  {
    if rs == [] {
      CallsInRefl(w, {Uninstall(c)});
    } else {
      var o := IssueS(w, DeleteResource(c, Id(rs[0])));
      IssueCalls(w, DeleteResource(c, Id(rs[0])));
      if o.value.None? {
        var w1 := o.world.(live := w.live - {Id(rs[0])});
        DeleteShape(w1, c, rs[1..]);
        CallsInTrans(w, w1, DeleteS(w1, c, rs[1..]).world, {Uninstall(c)}, {Uninstall(c)}, {Uninstall(c)});
      }
    }
  }

  lemma {:induction false} DeploymentsCheckShape(w: World, c: Component, ds: seq<Resource>)
    ensures var o := DeploymentsCheckS(w, c, ds);
            CallsIn(w, o.world, {Readiness(c)}) && o.world.objects == w.objects && o.world.live == w.live
    decreases |ds|
  {
    if ds == [] {
      CallsInRefl(w, {Readiness(c)});
    } else {
      var g := GetDeploymentS(w, c, DeploymentKey(ds[0]));
      IssueCalls(w, Call.GetDeployment(c, DeploymentKey(ds[0])));
      if g.value.Success? && Available(g.value.value) {
        DeploymentsCheckShape(g.world, c, ds[1..]);
        CallsInTrans(w, g.world, DeploymentsCheckS(g.world, c, ds[1..]).world, {Readiness(c)}, {Readiness(c)}, {Readiness(c)});
      }
    }
  }

  lemma ManifestShape(w: World, c: Component, owner: Key)
    ensures var o := ManifestS(w, c, owner);
            CallsIn(w, o.world, {ManifestRead(c)}) && o.world.objects == w.objects && o.world.live == w.live
  {
    var l := LoadS(w, c);
    IssueCalls(w, LoadManifest(c));
    if l.value.Success? {
      IssueCalls(l.world, TransformManifest(c));
      CallsInTrans(w, l.world, TransformS(l.world, c, owner, l.value.value).world, {ManifestRead(c)}, {ManifestRead(c)}, {ManifestRead(c)});
    }
  }

  /** Installing one component issues only that component's manifest calls and
      never writes a KnativeKafka. */
  lemma InstallComponentShape(w: World, c: Component, inst: KnativeKafka)
    ensures var o := InstallComponentS(w, c, inst);
            var m := ManifestS(w, c, inst.key);
            && CallsIn(w, o.world, InstallClasses(c)) && o.world.objects == w.objects
            && (exists m1, m2 :: && CallsIn(w, m1, {ManifestRead(c)})
                                 && CallsIn(m1, m2, {Install(c)})
                                 && CallsIn(m2, o.world, {Readiness(c)}))
            && (m.value.Failure? ==> o.world == m.world)
            && (m.value.Success? && ApplyS(m.world, c, m.value.value).value.Some? ==>
                  o.world == ApplyS(m.world, c, m.value.value).world)
  {
    var o := InstallComponentS(w, c, inst);
    var m := ManifestS(w, c, inst.key);
    ManifestShape(w, c, inst.key);
    CallsInWeaken(w, m.world, {ManifestRead(c)}, InstallClasses(c));
    if m.value.Success? {
      var a := ApplyS(m.world, c, m.value.value);
      ApplyShape(m.world, c, m.value.value);
      CallsInTrans(w, m.world, a.world, InstallClasses(c), {Install(c)}, InstallClasses(c));
      if a.value.None? {
        var d := CheckDeploymentsS(a.world, c, m.value.value);
        DeploymentsCheckShape(a.world, c, Deployments(m.value.value));
        CallsInTrans(w, a.world, d.world, InstallClasses(c), {Readiness(c)}, InstallClasses(c));
        assert CallsIn(w, m.world, {ManifestRead(c)}) && CallsIn(m.world, a.world, {Install(c)}) && CallsIn(a.world, o.world, {Readiness(c)});
      } else {
        CallsInRefl(a.world, {Readiness(c)});
        assert CallsIn(w, m.world, {ManifestRead(c)}) && CallsIn(m.world, a.world, {Install(c)}) && CallsIn(a.world, o.world, {Readiness(c)});
      }
    } else {
      CallsInRefl(m.world, {Install(c)});
      CallsInRefl(m.world, {Readiness(c)});
      assert CallsIn(w, m.world, {ManifestRead(c)}) && CallsIn(m.world, m.world, {Install(c)}) && CallsIn(m.world, o.world, {Readiness(c)});
    }
  }

  /** Deleting one component issues only that component's manifest calls. */
  lemma DeleteComponentShape(w: World, c: Component, inst: KnativeKafka)
    ensures var o := DeleteComponentS(w, c, inst);
            var m := ManifestS(w, c, inst.key);
            && CallsIn(w, o.world, UninstallClasses(c)) && o.world.objects == w.objects
            && (exists m1 :: CallsIn(w, m1, {ManifestRead(c)}) && CallsIn(m1, o.world, {Uninstall(c)}))
            && (m.value.Failure? ==> o.world == m.world)
  {
    var o := DeleteComponentS(w, c, inst);
    var m := ManifestS(w, c, inst.key);
    ManifestShape(w, c, inst.key);
    CallsInWeaken(w, m.world, {ManifestRead(c)}, UninstallClasses(c));
    if m.value.Success? {
      DeleteShape(m.world, c, m.value.value);
      CallsInTrans(w, m.world, DeleteS(m.world, c, m.value.value).world, UninstallClasses(c), {Uninstall(c)}, UninstallClasses(c));
      assert CallsIn(w, m.world, {ManifestRead(c)}) && CallsIn(m.world, o.world, {Uninstall(c)});
    } else {
      CallsInRefl(m.world, {Uninstall(c)});
      assert CallsIn(w, m.world, {ManifestRead(c)}) && CallsIn(m.world, o.world, {Uninstall(c)});
    }
  }

  // ---------------------------------------------------------------------------
  // Component selection and order.
  // ---------------------------------------------------------------------------

  function Enabled(inst: KnativeKafka, c: Component): bool
  {
    match c
    case KafkaChannel => inst.spec.channel.enabled
    case KafkaSource => inst.spec.source.enabled
  }

  /** The calls installing component `c` may issue: none when it is disabled. */
  function InstallScope(inst: KnativeKafka, c: Component): set<CallClass>
  {
    if Enabled(inst, c) then InstallClasses(c) else {}
  }

  function UninstallScope(inst: KnativeKafka, c: Component): set<CallClass>
  {
    if Enabled(inst, c) then UninstallClasses(c) else {}
  }

  /** `applyKnativeKafka` handles KafkaChannel completely before KafkaSource,
      touches a disabled component not at all, never writes a KnativeKafka,
      and does not reach KafkaSource once KafkaChannel has failed. */
  lemma ApplyKnativeKafkaOrder(w: World, inst: KnativeKafka)
    ensures var o := ApplyKnativeKafkaS(w, inst);
            && o.world.objects == w.objects
            && (exists mid :: CallsIn(w, mid, InstallScope(inst, KafkaChannel))
                              && CallsIn(mid, o.world, InstallScope(inst, KafkaSource)))
            && (o.value.Some? ==> o.value.value.Wrapped?
                                  && o.value.value.context in {"unable to install Knative KafkaChannel", "unable to install Knative KafkaSource"})
            && (o.value.Some? && o.value.value.context == "unable to install Knative KafkaChannel" ==>
                  CallsIn(w, o.world, InstallScope(inst, KafkaChannel)))
  {
    var o := ApplyKnativeKafkaS(w, inst);
    var ch := if inst.spec.channel.enabled then InstallComponentS(w, KafkaChannel, inst) else Out(w, None);
    if inst.spec.channel.enabled {
      InstallComponentShape(w, KafkaChannel, inst);
    } else {
      CallsInRefl(w, {});
    }
    assert CallsIn(w, ch.world, InstallScope(inst, KafkaChannel));
    if ch.value.Some? {
      CallsInRefl(o.world, InstallScope(inst, KafkaSource));
      assert CallsIn(w, ch.world, InstallScope(inst, KafkaChannel)) && CallsIn(ch.world, o.world, InstallScope(inst, KafkaSource));
    } else {
      var src := if inst.spec.source.enabled then InstallComponentS(ch.world, KafkaSource, inst) else Out(ch.world, None);
      if inst.spec.source.enabled {
        InstallComponentShape(ch.world, KafkaSource, inst);
      } else {
        CallsInRefl(ch.world, {});
      }
      assert CallsIn(w, ch.world, InstallScope(inst, KafkaChannel)) && CallsIn(ch.world, o.world, InstallScope(inst, KafkaSource));
    }
  }

  /** `deleteKnativeKafka` removes KafkaChannel's resources before KafkaSource's,
      skips a disabled component, never writes a KnativeKafka and stops at the
      first component that fails. */
  lemma DeleteKnativeKafkaOrder(w: World, inst: KnativeKafka)
    ensures var o := DeleteKnativeKafkaS(w, inst);
            && o.world.objects == w.objects
            && (exists mid :: CallsIn(w, mid, UninstallScope(inst, KafkaChannel))
                              && CallsIn(mid, o.world, UninstallScope(inst, KafkaSource)))
            && (o.value.Some? ==> o.value.value.Wrapped?
                                  && o.value.value.context in {"unable to delete Knative KafkaChannel", "unable to delete Knative KafkaSource"})
            && (o.value.Some? && o.value.value.context == "unable to delete Knative KafkaChannel" ==>
                  CallsIn(w, o.world, UninstallScope(inst, KafkaChannel)))
  {
    var o := DeleteKnativeKafkaS(w, inst);
    var ch := if inst.spec.channel.enabled then DeleteComponentS(w, KafkaChannel, inst) else Out(w, None);
    if inst.spec.channel.enabled {
      DeleteComponentShape(w, KafkaChannel, inst);
    } else {
      CallsInRefl(w, {});
    }
    assert CallsIn(w, ch.world, UninstallScope(inst, KafkaChannel));
    if ch.value.Some? {
      CallsInRefl(o.world, UninstallScope(inst, KafkaSource));
      assert CallsIn(w, ch.world, UninstallScope(inst, KafkaChannel)) && CallsIn(ch.world, o.world, UninstallScope(inst, KafkaSource));
    } else {
      var src := if inst.spec.source.enabled then DeleteComponentS(ch.world, KafkaSource, inst) else Out(ch.world, None);
      if inst.spec.source.enabled {
        DeleteComponentShape(ch.world, KafkaSource, inst);
      } else {
        CallsInRefl(ch.world, {});
      }
      assert CallsIn(w, ch.world, UninstallScope(inst, KafkaChannel)) && CallsIn(ch.world, o.world, UninstallScope(inst, KafkaSource));
    }
  }

  /** Every call of either component's install or delete. */
  function ManifestClasses(): set<CallClass>
  {
    InstallClasses(KafkaChannel) + InstallClasses(KafkaSource) + UninstallClasses(KafkaChannel) + UninstallClasses(KafkaSource)
  }

  lemma DeleteKnativeKafkaObjects(w: World, inst: KnativeKafka)
    ensures DeleteKnativeKafkaS(w, inst).world.objects == w.objects
  {
    if inst.spec.channel.enabled {
      DeleteComponentShape(w, KafkaChannel, inst);
      var ch := DeleteComponentS(w, KafkaChannel, inst);
      if ch.value.None? && inst.spec.source.enabled {
        DeleteComponentShape(ch.world, KafkaSource, inst);
      }
    } else if inst.spec.source.enabled {
      DeleteComponentShape(w, KafkaSource, inst);
    }
  }

  lemma ApplyKnativeKafkaCalls(w: World, inst: KnativeKafka)
    ensures CallsIn(w, ApplyKnativeKafkaS(w, inst).world, InstallClasses(KafkaChannel) + InstallClasses(KafkaSource))
  {
    ApplyKnativeKafkaOrder(w, inst);
    var o := ApplyKnativeKafkaS(w, inst);
    var mid :| CallsIn(w, mid, InstallScope(inst, KafkaChannel)) && CallsIn(mid, o.world, InstallScope(inst, KafkaSource));
    CallsInTrans(w, mid, o.world, InstallScope(inst, KafkaChannel), InstallScope(inst, KafkaSource),
                 InstallClasses(KafkaChannel) + InstallClasses(KafkaSource));
  }

  lemma DeleteKnativeKafkaCalls(w: World, inst: KnativeKafka)
    ensures CallsIn(w, DeleteKnativeKafkaS(w, inst).world, UninstallClasses(KafkaChannel) + UninstallClasses(KafkaSource))
  {
    DeleteKnativeKafkaOrder(w, inst);
    var o := DeleteKnativeKafkaS(w, inst);
    var mid :| CallsIn(w, mid, UninstallScope(inst, KafkaChannel)) && CallsIn(mid, o.world, UninstallScope(inst, KafkaSource));
    CallsInTrans(w, mid, o.world, UninstallScope(inst, KafkaChannel), UninstallScope(inst, KafkaSource),
                 UninstallClasses(KafkaChannel) + UninstallClasses(KafkaSource));
  }

  // ---------------------------------------------------------------------------
  // The finalizer stage and the install stage.
  // ---------------------------------------------------------------------------

  /** `ensureFinalizers`: a no-op when the finalizer is present; otherwise one
      Update carrying the list with the finalizer appended, which on success
      leaves the finalizer in the store. Either way the in-memory instance
      holds the finalizer afterwards, so a second run is a no-op. */
  lemma EnsureFinalizersSpec(w: World, inst: KnativeKafka)
    ensures var o := EnsureFinalizersS(w, inst);
            && o.value.instance == inst.(finalizers := o.value.instance.finalizers)
            && FinalizerName in o.value.instance.finalizers
            && (FinalizerName in inst.finalizers ==> o == Out(w, Staged(inst, None)))
            && (FinalizerName !in inst.finalizers ==>
                  && o.value.instance.finalizers == inst.finalizers + [FinalizerName]
                  && o.world.trace == w.trace + [UpdateKafka(inst.key, inst.finalizers + [FinalizerName])]
                  && (o.value.err.None? <==> |w.trace| !in w.env.faults && inst.key in w.objects)
                  && (o.value.err.None? ==> inst.key in o.world.objects
                                            && o.world.objects[inst.key].finalizers == inst.finalizers + [FinalizerName])
                  && (o.value.err.Some? ==> o.world.objects == w.objects))
            && EnsureFinalizersS(o.world, o.value.instance) == Out(o.world, Staged(o.value.instance, None))
  {
  }

  /** `installKnativeKafka` records its outcome in the status: InstallSucceeded
      when applying succeeded, otherwise InstallFailed with the error's text. */
  lemma InstallOutcomeInStatus(w: World, inst: KnativeKafka)
    ensures var o := InstallKnativeKafkaS(w, inst);
            && o.value.err == ApplyKnativeKafkaS(w, inst).value
            && o.value.instance == inst.(status := o.value.instance.status)
            && o.value.instance.status.version == inst.status.version
            && (o.value.err.None? ==> o.value.instance.status.install == InstallSucceeded)
            && (o.value.err.Some? ==> o.value.instance.status.install == InstallFailed(Message(o.value.err.value)))
  {
  }

  /** The classes of call `reconcileKnativeKafka` can issue. */
  function ReconcileClasses(): set<CallClass>
  {
    {FinalizerWrite} + InstallClasses(KafkaChannel) + InstallClasses(KafkaSource)
  }

  /** `reconcileKnativeKafka`: the status is initialised, the finalizer stage
      runs first, and nothing is installed unless the finalizer was already
      present or its Update succeeded; a failed Update is the only call and its
      error is returned. Otherwise the install outcome is returned and recorded
      in the status. */
  lemma ReconcileKnativeKafkaOutcome(w: World, inst: KnativeKafka)
    ensures var o := ReconcileKnativeKafkaS(w, inst);
            var e := EnsureFinalizersS(w, inst.(status := InitializeConditions(inst.status)));
            var added := FinalizerName !in inst.finalizers;
            var persisted := !added || (|w.trace| !in w.env.faults && inst.key in w.objects);
            && CallsIn(w, o.world, ReconcileClasses())
            && o.value.instance.key == inst.key && o.value.instance.spec == inst.spec
            && FinalizerName in o.value.instance.finalizers
            && o.value.instance.status.version == inst.status.version
            && (added ==> |o.world.trace| > |w.trace|
                          && o.world.trace[|w.trace|] == UpdateKafka(inst.key, inst.finalizers + [FinalizerName]))
            && (!persisted ==> && o.world.trace == w.trace + [UpdateKafka(inst.key, inst.finalizers + [FinalizerName])]
                               && o.value.err.Some?
                               && o.value.err == e.value.err
                               && o.value.instance.status == InitializeConditions(inst.status))
            && (persisted ==> && o.value.err == ApplyKnativeKafkaS(e.world, e.value.instance).value
                              && (o.value.err.None? ==> o.value.instance.status.install == InstallSucceeded)
                              && (o.value.err.Some? ==> o.value.instance.status.install == InstallFailed(Message(o.value.err.value))))
  {
    var i0 := inst.(status := InitializeConditions(inst.status));
    var e := EnsureFinalizersS(w, i0);
    EnsureFinalizersSpec(w, i0);
    assert CallsIn(w, e.world, {FinalizerWrite}) by {
      if FinalizerName !in i0.finalizers {
        assert e.world.trace[..|w.trace|] == w.trace;
      }
    }
    var o := ReconcileKnativeKafkaS(w, inst);
    if e.value.err.None? {
      var a := InstallKnativeKafkaS(e.world, e.value.instance);
      assert o == a;
      InstallOutcomeInStatus(e.world, e.value.instance);
      ApplyKnativeKafkaCalls(e.world, e.value.instance);
      CallsInTrans(w, e.world, o.world, {FinalizerWrite}, InstallClasses(KafkaChannel) + InstallClasses(KafkaSource), ReconcileClasses());
      if FinalizerName !in inst.finalizers {
        assert o.world.trace[..|e.world.trace|][|w.trace|] == o.world.trace[|w.trace|];
      }
    } else {
      assert o == e;
    }
  }

  // ---------------------------------------------------------------------------
  // The finalizer protocol of `delete`.
  // ---------------------------------------------------------------------------

  /** The classes of call the deletion path can issue. */
  function FinalizeClasses(): set<CallClass>
  {
    {KafkaRead, FinalizerWrite} + UninstallClasses(KafkaChannel) + UninstallClasses(KafkaSource)
  }

  /** Without the controller's finalizer there is nothing to clean up. */
  lemma FinalizeWithoutFinalizer(w: World, inst: KnativeKafka)
    requires FinalizerName !in inst.finalizers
    ensures FinalizeS(w, inst) == Out(w, None)
  {
  }

  /** If removing the components fails, the finalizer stays: the KnativeKafka is
      neither re-fetched nor updated, the store is unchanged, and the error is
      returned. */
  lemma CleanupFailureKeepsFinalizer(w: World, inst: KnativeKafka)
    requires FinalizerName in inst.finalizers
    requires DeleteKnativeKafkaS(w, inst).value.Some?
    ensures var o := FinalizeS(w, inst);
            && o.world.objects == w.objects
            && CallsIn(w, o.world, UninstallClasses(KafkaChannel) + UninstallClasses(KafkaSource))
            && o.value == Some(Wrapped("failed to delete kourier", DeleteKnativeKafkaS(w, inst).value.value))
  {
    DeleteKnativeKafkaCalls(w, inst);
    DeleteKnativeKafkaObjects(w, inst);
  }

  /** Once the components are gone the KnativeKafka is re-fetched, and the list
      written back is the re-fetched list (not the one the reconcile began
      with) as a sorted set without the controller's finalizer. */
  lemma FinalizerRemoval(w: World, inst: KnativeKafka)
    requires WellKeyed(w)
    requires FinalizerName in inst.finalizers
    requires DeleteKnativeKafkaS(w, inst).value.None?
    ensures var d := DeleteKnativeKafkaS(w, inst).world;
            var o := FinalizeS(w, inst);
            && CallsIn(w, o.world, FinalizeClasses())
            && |o.world.trace| >= |d.trace| + 1
            && o.world.trace[|d.trace|] == GetKafka(inst.key)
            && (|d.trace| in w.env.faults || inst.key !in w.objects ==>
                  o.world.trace == d.trace + [GetKafka(inst.key)] && o.world.objects == w.objects && o.value.Some?)
            && (|d.trace| !in w.env.faults && inst.key in w.objects ==>
                  var fs := RemainingFinalizers(w.objects[inst.key].finalizers);
                  && o.world.trace == d.trace + [GetKafka(inst.key), UpdateKafka(inst.key, fs)]
                  && (o.value.Some? <==> |d.trace| + 1 in w.env.faults)
                  && (o.value.Some? ==> o.world.objects == w.objects)
                  && StringSets.StrictlySorted(fs)
                  && FinalizerName !in fs
                  && (forall f :: f in w.objects[inst.key].finalizers && f != FinalizerName ==> f in fs)
                  && (forall f :: f in fs ==> f in w.objects[inst.key].finalizers))
  {
    var d := DeleteKnativeKafkaS(w, inst);
    DeleteKnativeKafkaCalls(w, inst);
    DeleteKnativeKafkaObjects(w, inst);
    var g := GetS(d.world, inst.key);
    IssueCalls(d.world, GetKafka(inst.key));
    CallsInTrans(w, d.world, g.world, UninstallClasses(KafkaChannel) + UninstallClasses(KafkaSource), {KafkaRead}, FinalizeClasses());
    var o := FinalizeS(w, inst);
    if g.value.Success? {
      var refetched := g.value.value;
      var obj := refetched.(finalizers := RemainingFinalizers(refetched.finalizers));
      IssueCalls(g.world, UpdateKafka(obj.key, obj.finalizers));
      CallsInTrans(w, g.world, UpdateS(g.world, obj).world, FinalizeClasses(), {FinalizerWrite}, FinalizeClasses());
      assert d.world.trace + [GetKafka(inst.key)] + [UpdateKafka(inst.key, obj.finalizers)]
          == d.world.trace + [GetKafka(inst.key), UpdateKafka(inst.key, obj.finalizers)];
    }
  }

  // ---------------------------------------------------------------------------
  // `Reconcile`.
  // ---------------------------------------------------------------------------

  /** The classes of call the normal (not deleting) path can issue. */
  function NormalClasses(): set<CallClass>
  {
    {KafkaRead, StatusWrite} + ReconcileClasses()
  }

  /** A status write was issued between `w` and `w'`. */
  predicate WritesStatus(w: World, w': World)
  {
    exists i :: |w.trace| <= i < |w'.trace| && w'.trace[i].UpdateKafkaStatus?
  }

  /** A KnativeKafka that is gone is not an error and is not requeued; any other
      failed Get is returned. Either way nothing else is called. */
  lemma ReconcileFetchFailure(w: World, key: Key)
    requires |w.trace| in w.env.faults || key !in w.objects
    ensures ReconcileS(w, key) ==
            Out(w.(trace := w.trace + [GetKafka(key)]),
                if |w.trace| in w.env.faults then Some(ApiError(w.env.faults[|w.trace|])) else None)
  {
  }

  /** An object marked for deletion takes the deletion path only: no manifest
      is applied, no deployment is checked and the status is not written. */
  lemma DeletionPathOnly(w: World, key: Key)
    requires WellKeyed(w)
    requires key in w.objects && w.objects[key].deleting
    ensures var o := ReconcileS(w, key);
            && CallsIn(w, o.world, FinalizeClasses())
            && (forall i :: |w.trace| <= i < |o.world.trace| ==>
                  !o.world.trace[i].ApplyResource? && !o.world.trace[i].UpdateKafkaStatus? && !o.world.trace[i].GetDeployment?)
  {
    DeletionCalls(w, key);
    var o := ReconcileS(w, key);
    FinalizeClassesOnly(w, o.world);
  }

  lemma DeletionCalls(w: World, key: Key)
    requires WellKeyed(w)
    requires key in w.objects && w.objects[key].deleting
    ensures CallsIn(w, ReconcileS(w, key).world, FinalizeClasses())
  {
    var g := GetS(w, key);
    IssueCalls(w, GetKafka(key));
    if |w.trace| in w.env.faults {
      ReconcileFetchFailure(w, key);
      CallsInWeaken(w, g.world, {KafkaRead}, FinalizeClasses());
    } else {
      ReconcileDeleting(w, key);
      FinalizeCalls(g.world, w.objects[key]);
      CallsInTrans(w, g.world, ReconcileS(w, key).world, {KafkaRead}, FinalizeClasses(), FinalizeClasses());
    }
  }

  /** None of the deletion path's classes applies, checks a deployment or
      writes a status. */
  lemma FinalizeClassesOnly(w: World, w': World)
    requires CallsIn(w, w', FinalizeClasses())
    ensures forall i :: |w.trace| <= i < |w'.trace| ==>
              !w'.trace[i].ApplyResource? && !w'.trace[i].UpdateKafkaStatus? && !w'.trace[i].GetDeployment?
  {
    forall i | |w.trace| <= i < |w'.trace|
      ensures !w'.trace[i].ApplyResource? && !w'.trace[i].UpdateKafkaStatus? && !w'.trace[i].GetDeployment?
    {
      assert ClassOf(w'.trace[i]) in FinalizeClasses();
    }
  }

  lemma ReconcileDeleting(w: World, key: Key)
    requires key in w.objects && w.objects[key].deleting && |w.trace| !in w.env.faults
    ensures ReconcileS(w, key) == FinalizeS(GetS(w, key).world, w.objects[key])
  {
  }

  /** The deletion path calls only the Get, the Update and the components'
      deletes. */
  lemma FinalizeCalls(w: World, inst: KnativeKafka)
    requires WellKeyed(w)
    ensures CallsIn(w, FinalizeS(w, inst).world, FinalizeClasses())
  {
    if FinalizerName !in inst.finalizers {
      CallsInRefl(w, FinalizeClasses());
    } else if DeleteKnativeKafkaS(w, inst).value.Some? {
      CleanupFailureKeepsFinalizer(w, inst);
      CallsInWeaken(w, FinalizeS(w, inst).world, UninstallClasses(KafkaChannel) + UninstallClasses(KafkaSource), FinalizeClasses());
    } else {
      FinalizerRemoval(w, inst);
    }
  }

  /** On the normal path the status is written exactly when reconciling changed
      it, and it is written last, with the reconciled status. The stages' error
      is returned, unless writing the status failed. */
  lemma StatusWrittenWhenChanged(w: World, key: Key)
    requires WellKeyed(w)
    requires key in w.objects && !w.objects[key].deleting && |w.trace| !in w.env.faults
    ensures var original := w.objects[key];
            var r := ReconcileKnativeKafkaS(GetS(w, key).world, original);
            var changed := original.status != r.value.instance.status;
            var o := ReconcileS(w, key);
            && CallsIn(w, o.world, NormalClasses())
            && (WritesStatus(w, o.world) <==> changed)
            && (changed ==> o.world.trace == r.world.trace + [UpdateKafkaStatus(key, r.value.instance.status)])
            && (!changed ==> o == Out(r.world, r.value.err))
            && (var u := UpdateStatusS(r.world, r.value.instance);
                && (changed && u.value.None? ==> o.value == r.value.err)
                && (changed && u.value.Some? ==> o.value == Some(Wrapped("failed to update status", u.value.value))))
  {
    var original := w.objects[key];
    NormalStagesCalls(w, key);
    ReconcileNormal(w, key);
    StatusStep(w, ReconcileKnativeKafkaS(GetS(w, key).world, original), original, ReconcileS(w, key));
  }

  /** Before the status step, the normal path has issued the Get and the
      stages' calls only, and the reconciled instance keeps its key. */
  lemma NormalStagesCalls(w: World, key: Key)
    requires WellKeyed(w)
    requires key in w.objects
    ensures var r := ReconcileKnativeKafkaS(GetS(w, key).world, w.objects[key]);
            && CallsIn(w, r.world, NormalClasses() - {StatusWrite})
            && r.value.instance.key == key
  {
    var g := GetS(w, key);
    IssueCalls(w, GetKafka(key));
    ReconcileKnativeKafkaOutcome(g.world, w.objects[key]);
    CallsInTrans(w, g.world, ReconcileKnativeKafkaS(g.world, w.objects[key]).world,
                 {KafkaRead}, ReconcileClasses(), NormalClasses() - {StatusWrite});
  }

  /** The status step of `Reconcile`, over any outcome `r` of the stages. */
  lemma StatusStep(w: World, r: Out<Staged>, original: KnativeKafka, o: Out<Option<Error>>)
    requires CallsIn(w, r.world, NormalClasses() - {StatusWrite})
    requires r.value.instance.key == original.key
    requires original.status == r.value.instance.status ==> o == Out(r.world, r.value.err)
    requires original.status != r.value.instance.status ==>
               var u := UpdateStatusS(r.world, r.value.instance);
               && o.world == u.world
               && (u.value.None? ==> o.value == r.value.err)
               && (u.value.Some? ==> o.value == Some(Wrapped("failed to update status", u.value.value)))
    ensures var changed := original.status != r.value.instance.status;
            && CallsIn(w, o.world, NormalClasses())
            && (WritesStatus(w, o.world) <==> changed)
            && (changed ==> o.world.trace == r.world.trace + [UpdateKafkaStatus(original.key, r.value.instance.status)])
            && (var u := UpdateStatusS(r.world, r.value.instance);
                && (!changed ==> o.value == r.value.err)
                && (changed && u.value.None? ==> o.value == r.value.err)
                && (changed && u.value.Some? ==> o.value == Some(Wrapped("failed to update status", u.value.value))))
  {
    forall i | |w.trace| <= i < |r.world.trace| ensures !r.world.trace[i].UpdateKafkaStatus? {
      assert ClassOf(r.world.trace[i]) in NormalClasses() - {StatusWrite};
    }
    if original.status != r.value.instance.status {
      IssueCalls(r.world, UpdateKafkaStatus(original.key, r.value.instance.status));
      CallsInTrans(w, r.world, o.world, NormalClasses() - {StatusWrite}, {StatusWrite}, NormalClasses());
      assert o.world.trace[|r.world.trace|].UpdateKafkaStatus?;
    } else {
      CallsInWeaken(w, o.world, NormalClasses() - {StatusWrite}, NormalClasses());
    }
  }

  lemma ReconcileNormal(w: World, key: Key)
    requires key in w.objects && !w.objects[key].deleting && |w.trace| !in w.env.faults
    ensures var original := w.objects[key];
            var r := ReconcileKnativeKafkaS(GetS(w, key).world, original);
            var u := UpdateStatusS(r.world, r.value.instance);
            var o := ReconcileS(w, key);
            && (original.status == r.value.instance.status ==> o == Out(r.world, r.value.err))
            && (original.status != r.value.instance.status ==>
                  && o.world == u.world
                  && (u.value.None? ==> o.value == r.value.err)
                  && (u.value.Some? ==> o.value == Some(Wrapped("failed to update status", u.value.value))))
  {
  }

  // ---------------------------------------------------------------------------
  // Readiness.
  // ---------------------------------------------------------------------------

  /** The `n`-th call, a Get of deployment `r`, succeeds and finds it available. */
  predicate DeploymentOk(env: Env, n: nat, r: Resource)
  {
    n !in env.faults && DeploymentKey(r) in env.deployments && Available(env.deployments[DeploymentKey(r)])
  }

  /** Why the check of deployment `r`, as the `n`-th call, fails. */
  function DeploymentError(env: Env, n: nat, r: Resource): Error
  {
    if n in env.faults then ApiError(env.faults[n])
    else if DeploymentKey(r) !in env.deployments then NotFound(DeploymentResource, r.name)
    else NotReady(r.name, r.namespace)
  }

  /** Deployment `i` is the first of `ds` whose check fails, the checks being
      issued from call `n` on. */
  predicate FirstFailure(env: Env, n: nat, ds: seq<Resource>, i: nat)
  {
    i < |ds| && !DeploymentOk(env, n + i, ds[i]) && forall j :: 0 <= j < i ==> DeploymentOk(env, n + j, ds[j])
  }

  /** `checkDeployments` succeeds exactly when every deployment is found and
      available, checking them in order; otherwise it returns the error of the
      first one that is not, having checked none after it. */
  lemma ReadinessVerdict(w: World, c: Component, ds: seq<Resource>)
    ensures var o := DeploymentsCheckS(w, c, ds);
            var n := |w.trace|;
            && (o.value.None? <==> forall i :: 0 <= i < |ds| ==> DeploymentOk(w.env, n + i, ds[i]))
            && (o.value.None? ==> o.world.trace == w.trace + Gets(c, ds))
            && (o.value.Some? ==> exists i: nat :: FirstFailure(w.env, n, ds, i)
                                                 && o.value.value == DeploymentError(w.env, n + i, ds[i])
                                                 && o.world.trace == w.trace + Gets(c, ds[..i + 1]))
  {
    ReadinessPass(w, c, ds);
    ReadinessFail(w, c, ds);
  }

  /** The Gets `checkDeployments` issues for `ds`, one per deployment, in order. */
  function Gets(c: Component, ds: seq<Resource>): seq<Call>
  {
    seq(|ds|, i requires 0 <= i < |ds| => GetDeployment(c, DeploymentKey(ds[i])))
  }

  lemma GetsCons(w: World, c: Component, ds: seq<Resource>)
    requires ds != []
    ensures w.trace + [GetDeployment(c, DeploymentKey(ds[0]))] + Gets(c, ds[1..]) == w.trace + Gets(c, ds)
  {
    assert [GetDeployment(c, DeploymentKey(ds[0]))] + Gets(c, ds[1..]) == Gets(c, ds);
  }

  /** Every deployment passes exactly when the first does and every later one. */
  lemma AllOkShift(env: Env, n: nat, ds: seq<Resource>)
    requires ds != []
    ensures (forall i :: 0 <= i < |ds| ==> DeploymentOk(env, n + i, ds[i])) <==>
            DeploymentOk(env, n, ds[0]) && forall i :: 0 <= i < |ds[1..]| ==> DeploymentOk(env, n + 1 + i, ds[1..][i])
  {
    if DeploymentOk(env, n, ds[0]) && forall i :: 0 <= i < |ds[1..]| ==> DeploymentOk(env, n + 1 + i, ds[1..][i]) {
      forall i | 0 <= i < |ds| ensures DeploymentOk(env, n + i, ds[i]) {
        if i > 0 {
          assert DeploymentOk(env, n + 1 + (i - 1), ds[1..][i - 1]);
        }
      }
    }
    if forall i :: 0 <= i < |ds| ==> DeploymentOk(env, n + i, ds[i]) {
      forall i | 0 <= i < |ds[1..]| ensures DeploymentOk(env, n + 1 + i, ds[1..][i]) {
        assert DeploymentOk(env, n + (i + 1), ds[i + 1]);
      }
      assert DeploymentOk(env, n + 0, ds[0]);
    }
  }

  lemma {:induction false} ReadinessPass(w: World, c: Component, ds: seq<Resource>)
    ensures var o := DeploymentsCheckS(w, c, ds);
            && (o.value.None? <==> forall i :: 0 <= i < |ds| ==> DeploymentOk(w.env, |w.trace| + i, ds[i]))
            && (o.value.None? ==> o.world.trace == w.trace + Gets(c, ds))
    decreases |ds|
  {
    var n := |w.trace|;
    if ds == [] {
      assert Gets(c, ds) == [];
    } else {
      var g := GetDeploymentS(w, c, DeploymentKey(ds[0]));
      if g.value.Success? && Available(g.value.value) {
        ReadinessPass(g.world, c, ds[1..]);
        GetsCons(w, c, ds);
        AllOkShift(w.env, n, ds);
      } else {
        assert !DeploymentOk(w.env, n + 0, ds[0]);
      }
    }
  }

  /** The condition loop of `checkDeployments`, one condition at a time: a
      further condition keeps the verdict unless it is an `Available`
      condition whose status is not `True`. */
  lemma AvailableStep(conds: seq<DeploymentCondition>, d: DeploymentCondition)
    ensures Available(conds + [d]) <==> Available(conds) && (d.conditionType == DeploymentAvailable ==> d.status == ConditionTrue)
    ensures Available([])
  {
    assert forall e :: e in conds + [d] <==> e in conds || e == d;
  }

  /** A first failure at `k` in the tail, after a deployment that passed, is a
      first failure at `k + 1`. */
  lemma FirstFailureShift(env: Env, n: nat, ds: seq<Resource>, k: nat)
    requires ds != [] && DeploymentOk(env, n, ds[0]) && FirstFailure(env, n + 1, ds[1..], k)
    ensures FirstFailure(env, n, ds, k + 1)
    ensures DeploymentError(env, n + 1 + k, ds[1..][k]) == DeploymentError(env, n + (k + 1), ds[k + 1])
  {
    forall j | 0 <= j < k + 1 ensures DeploymentOk(env, n + j, ds[j]) {
      if j > 0 {
        assert DeploymentOk(env, n + 1 + (j - 1), ds[1..][j - 1]);
      }
    }
    assert ds[1..][k] == ds[k + 1] && n + 1 + k == n + (k + 1);
  }

  lemma GetsShift(w: World, c: Component, ds: seq<Resource>, k: nat)
    requires k + 1 < |ds|
    ensures w.trace + [GetDeployment(c, DeploymentKey(ds[0]))] + Gets(c, ds[1..][..k + 1]) == w.trace + Gets(c, ds[..k + 2])
  {
    assert ds[..k + 2][1..] == ds[1..][..k + 1] && ds[..k + 2][0] == ds[0];
    GetsCons(w, c, ds[..k + 2]);
  }

  lemma {:induction false} ReadinessFail(w: World, c: Component, ds: seq<Resource>)
    ensures var o := DeploymentsCheckS(w, c, ds);
            o.value.Some? ==> exists i: nat :: FirstFailure(w.env, |w.trace|, ds, i)
                                             && o.value.value == DeploymentError(w.env, |w.trace| + i, ds[i])
                                             && o.world.trace == w.trace + Gets(c, ds[..i + 1])
    decreases |ds|
  {
    var n := |w.trace|;
    if ds != [] {
      var g := GetDeploymentS(w, c, DeploymentKey(ds[0]));
      if g.value.Failure? || !Available(g.value.value) {
        assert FirstFailure(w.env, n, ds, 0);
        assert Gets(c, ds[..1]) == [GetDeployment(c, DeploymentKey(ds[0]))];
      } else {
        var rest := DeploymentsCheckS(g.world, c, ds[1..]);
        ReadinessFail(g.world, c, ds[1..]);
        if rest.value.Some? {
          var k: nat :| FirstFailure(w.env, n + 1, ds[1..], k)
                      && rest.value.value == DeploymentError(w.env, n + 1 + k, ds[1..][k])
                      && rest.world.trace == g.world.trace + Gets(c, ds[1..][..k + 1]);
          FirstFailureShift(w.env, n, ds, k);
          GetsShift(w, c, ds, k);
        }
      }
    }
  }

  // ---------------------------------------------------------------------------
  // When no call fails.
  // ---------------------------------------------------------------------------

  /** No call issued from `w` on fails. */
  predicate Quiet(w: World)
  {
    forall n :: n in w.env.faults ==> n < |w.trace|
  }

  /** The live resources after applying `rs` to `l` in order. */
  function Written(l: map<ResourceId, Resource>, rs: seq<Resource>): map<ResourceId, Resource>
    decreases |rs|
  {
    if rs == [] then l else Written(l[Id(rs[0]) := rs[0]], rs[1..])
  }

  lemma {:induction false} WrittenAppend(l: map<ResourceId, Resource>, a: seq<Resource>, b: seq<Resource>)
    ensures Written(l, a + b) == Written(Written(l, a), b)
    decreases |a|
  {
    if a != [] {
      assert (a + b)[0] == a[0] && (a + b)[1..] == a[1..] + b;
      WrittenAppend(l[Id(a[0]) := a[0]], a[1..], b);
    } else {
      assert a + b == b;
    }
  }

  /** Writing a resource last hides whatever was there before. */
  lemma {:induction false} WrittenOverride(l: map<ResourceId, Resource>, rs: seq<Resource>, r: Resource)
    ensures Written(l[Id(r) := r], rs)[Id(r) := r] == Written(l, rs)[Id(r) := r]
    decreases |rs|
  {
    if rs != [] {
      if Id(rs[0]) == Id(r) {
        assert l[Id(r) := r][Id(rs[0]) := rs[0]] == l[Id(rs[0]) := rs[0]];
      } else {
        assert l[Id(r) := r][Id(rs[0]) := rs[0]] == l[Id(rs[0]) := rs[0]][Id(r) := r];
        WrittenOverride(l[Id(rs[0]) := rs[0]], rs[1..], r);
      }
    }
  }

  /** Applying the same resources again changes nothing. */
  lemma {:induction false} WrittenTwice(l: map<ResourceId, Resource>, rs: seq<Resource>)
    ensures Written(Written(l, rs), rs) == Written(l, rs)
    decreases |rs|
  {
    if rs != [] {
      var init, x := rs[..|rs| - 1], rs[|rs| - 1];
      assert rs == init + [x];
      WrittenAppend(l, init, [x]);
      var m := Written(l, init);
      assert Written(l, rs) == m[Id(x) := x];
      WrittenAppend(m[Id(x) := x], init, [x]);
      assert Written(Written(l, rs), rs) == Written(m[Id(x) := x], init)[Id(x) := x];
      WrittenOverride(m, init, x);
      WrittenTwice(l, init);
    }
  }

  lemma {:induction false} ApplyQuiet(w: World, c: Component, rs: seq<Resource>)
    requires Quiet(w)
    ensures var o := ApplyS(w, c, rs);
            o.value.None? && o.world.live == Written(w.live, rs) && o.world.objects == w.objects && Grows(w, o.world)
    decreases |rs|
  {
    ApplyShape(w, c, rs);
    if rs != [] {
      var w1 := IssueS(w, ApplyResource(c, rs[0])).world.(live := w.live[Id(rs[0]) := rs[0]]);
      ApplyQuiet(w1, c, rs[1..]);
    }
  }

  /** The identities of a list of resources. */
  function IdsOf(rs: seq<Resource>): set<ResourceId>
  {
    set r | r in rs :: Id(r)
  }

  lemma {:induction false} DeleteQuiet(w: World, c: Component, rs: seq<Resource>)
    requires Quiet(w)
    ensures var o := DeleteS(w, c, rs);
            o.value.None? && o.world.live == w.live - IdsOf(rs) && o.world.objects == w.objects && Grows(w, o.world)
    decreases |rs|
  {
    DeleteShape(w, c, rs);
    if rs != [] {
      var w1 := IssueS(w, DeleteResource(c, Id(rs[0]))).world.(live := w.live - {Id(rs[0])});
      DeleteQuiet(w1, c, rs[1..]);
      assert IdsOf(rs) == {Id(rs[0])} + IdsOf(rs[1..]) by {
        assert rs == [rs[0]] + rs[1..];
      }
    }
  }

  /** The first deployment of `ds` that is missing or not available. */
  function Unready(deps: map<Key, seq<DeploymentCondition>>, ds: seq<Resource>): Option<Error>
    decreases |ds|
  {
    if ds == [] then None
    else if DeploymentKey(ds[0]) !in deps then Some(NotFound(DeploymentResource, ds[0].name))
    else if !Available(deps[DeploymentKey(ds[0])]) then Some(NotReady(ds[0].name, ds[0].namespace))
    else Unready(deps, ds[1..])
  }

  /** With nothing failing, readiness depends on the deployments alone. */
  lemma {:induction false} ReadinessQuiet(w: World, c: Component, ds: seq<Resource>)
    requires Quiet(w)
    ensures var o := DeploymentsCheckS(w, c, ds);
            o.value == Unready(w.env.deployments, ds) && o.world.objects == w.objects && o.world.live == w.live && Grows(w, o.world)
    decreases |ds|
  {
    DeploymentsCheckShape(w, c, ds);
    if ds != [] {
      ReadinessQuiet(GetDeploymentS(w, c, DeploymentKey(ds[0])).world, c, ds[1..]);
    }
  }

  /** What installing component `c` for `owner` returns when nothing fails. */
  function QuietInstall(env: Env, c: Component, owner: Key): Option<Error>
  {
    var u := Unready(env.deployments, Deployments(Transformed(c, owner, ManifestOf(env, c))));
    if u.Some? then Some(Wrapped("failed to check deployments", u.value)) else None
  }

  /** What `applyKnativeKafka` returns when nothing fails. */
  function QuietApply(env: Env, inst: KnativeKafka): Option<Error>
  {
    var ch := if inst.spec.channel.enabled then QuietInstall(env, KafkaChannel, inst.key) else None;
    var src := if inst.spec.source.enabled then QuietInstall(env, KafkaSource, inst.key) else None;
    if ch.Some? then Some(Wrapped("unable to install Knative KafkaChannel", ch.value))
    else if src.Some? then Some(Wrapped("unable to install Knative KafkaSource", src.value))
    else None
  }

  /** The resources `applyKnativeKafka` applies, in order, when nothing fails:
      KafkaChannel's if it is enabled, then KafkaSource's if it is enabled and
      KafkaChannel became ready. */
  function QuietWrites(env: Env, inst: KnativeKafka): seq<Resource>
  {
    var ch := if inst.spec.channel.enabled then Transformed(KafkaChannel, inst.key, env.channelManifest) else [];
    var chOk := !inst.spec.channel.enabled || QuietInstall(env, KafkaChannel, inst.key).None?;
    var src := if chOk && inst.spec.source.enabled then Transformed(KafkaSource, inst.key, env.sourceManifest) else [];
    ch + src
  }

  /** With nothing failing, installing a component applies its whole
      transformed manifest and then reports readiness. */
  lemma InstallComponentQuiet(w: World, c: Component, inst: KnativeKafka)
    requires Quiet(w)
    ensures var o := InstallComponentS(w, c, inst);
            && o.value == QuietInstall(w.env, c, inst.key)
            && o.world.live == Written(w.live, Transformed(c, inst.key, ManifestOf(w.env, c)))
            && o.world.objects == w.objects
            && Grows(w, o.world)
  {
    var t := Transformed(c, inst.key, ManifestOf(w.env, c));
    var m := ManifestS(w, c, inst.key);
    ManifestShape(w, c, inst.key);
    assert m.value == Success(t);
    ApplyQuiet(m.world, c, t);
    var a := ApplyS(m.world, c, t);
    ReadinessQuiet(a.world, c, Deployments(t));
  }

  /** `applyKnativeKafka` with nothing failing: the outcome and the resources
      written depend only on the environment, the key and the spec. */
  lemma ApplyKnativeKafkaQuiet(w: World, inst: KnativeKafka)
    requires Quiet(w)
    ensures var o := ApplyKnativeKafkaS(w, inst);
            && o.value == QuietApply(w.env, inst)
            && o.world.live == Written(w.live, QuietWrites(w.env, inst))
            && o.world.objects == w.objects
            && Grows(w, o.world)
  {
    var ch := if inst.spec.channel.enabled then InstallComponentS(w, KafkaChannel, inst) else Out(w, None);
    var pre := if inst.spec.channel.enabled then Transformed(KafkaChannel, inst.key, w.env.channelManifest) else [];
    if inst.spec.channel.enabled {
      InstallComponentQuiet(w, KafkaChannel, inst);
    }
    var post := if ch.value.None? && inst.spec.source.enabled then Transformed(KafkaSource, inst.key, w.env.sourceManifest) else [];
    if ch.value.None? && inst.spec.source.enabled {
      InstallComponentQuiet(ch.world, KafkaSource, inst);
    }
    WrittenAppend(w.live, pre, post);
    assert QuietWrites(w.env, inst) == pre + post;
  }

  /** The status a reconcile leaves: initialised, then the install outcome. */
  function ReconciledStatus(s: KnativeKafkaStatus, err: Option<Error>): KnativeKafkaStatus
  {
    var init := InitializeConditions(s);
    if err.Some? then MarkInstallFailed(init, Message(err.value)) else MarkInstallSucceeded(init)
  }

  /** The finalizer list after `ensureFinalizers`. */
  function WithFinalizer(fs: seq<string>): seq<string>
  {
    if FinalizerName in fs then fs else fs + [FinalizerName]
  }

  /** A first reconcile with nothing failing: the finalizer is added, every
      enabled component is installed, and the stored status records the
      install outcome, which is returned. */
  lemma FirstReconcile(w: World, key: Key)
    requires WellKeyed(w) && Quiet(w)
    requires key in w.objects && !w.objects[key].deleting
    ensures var original := w.objects[key];
            var err := QuietApply(w.env, original);
            var o := ReconcileS(w, key);
            && o.value == err
            && o.world.objects == w.objects[key := original.(finalizers := WithFinalizer(original.finalizers),
                                                               status := ReconciledStatus(original.status, err))]
            && o.world.live == Written(w.live, QuietWrites(w.env, original))
            && Grows(w, o.world)
  {
    var original := w.objects[key];
    var g := GetS(w, key);
    FirstStages(g.world, original);
    ReconcileNormal(w, key);
    FirstReconcileStep(w, g.world, original, ReconcileKnativeKafkaS(g.world, original), ReconcileS(w, key));
  }

  /** `FirstReconcile` over any outcome `r` of the stages and `o` of the
      reconcile, related as the first reconcile relates them. */
  lemma FirstReconcileStep(w: World, g: World, original: KnativeKafka, r: Out<Staged>, o: Out<Option<Error>>)
    requires WellKeyed(w) && Quiet(w)
    requires original.key in w.objects && w.objects[original.key] == original
    requires g == w.(trace := w.trace + [GetKafka(original.key)])
    requires var fs := WithFinalizer(original.finalizers);
             && r.value.err == QuietApply(w.env, original)
             && r.value.instance == original.(finalizers := fs, status := ReconciledStatus(original.status, r.value.err))
             && r.world.objects == g.objects[original.key := original.(finalizers := fs)]
             && r.world.live == Written(g.live, QuietWrites(w.env, original))
             && Grows(g, r.world)
    requires original.status == r.value.instance.status ==> o == Out(r.world, r.value.err)
    requires original.status != r.value.instance.status ==>
               var u := UpdateStatusS(r.world, r.value.instance);
               && o.world == u.world
               && (u.value.None? ==> o.value == r.value.err)
    ensures var err := QuietApply(w.env, original);
            && o.value == err
            && o.world.objects == w.objects[original.key := original.(finalizers := WithFinalizer(original.finalizers),
                                                                        status := ReconciledStatus(original.status, err))]
            && o.world.live == Written(w.live, QuietWrites(w.env, original))
            && Grows(w, o.world)
  {
    var key := original.key;
    var fs := WithFinalizer(original.finalizers);
    QuietStatusStep(r, original, o);
    assert Grows(w, g);
    GrowsTrans(w, g, r.world);
    GrowsTrans(w, r.world, o.world);
    assert r.world.objects[key] == original.(finalizers := fs);
    assert o.world.objects == g.objects[key := original.(finalizers := fs)][key := original.(finalizers := fs, status := r.value.instance.status)];
  }

  /** The status step of `Reconcile` when nothing fails, over any outcome `r`
      of the stages: the reconciled status is stored and the stages' error
      returned. */
  lemma QuietStatusStep(r: Out<Staged>, original: KnativeKafka, o: Out<Option<Error>>)
    requires Quiet(r.world)
    requires original.key in r.world.objects && r.world.objects[original.key].status == original.status
    requires r.value.instance.key == original.key
    requires original.status == r.value.instance.status ==> o == Out(r.world, r.value.err)
    requires original.status != r.value.instance.status ==>
               var u := UpdateStatusS(r.world, r.value.instance);
               && o.world == u.world
               && (u.value.None? ==> o.value == r.value.err)
    ensures o.value == r.value.err
    ensures o.world.objects == r.world.objects[original.key := r.world.objects[original.key].(status := r.value.instance.status)]
    ensures o.world.live == r.world.live && Grows(r.world, o.world)
  {
    if original.status == r.value.instance.status {
      assert r.world.objects[original.key := r.world.objects[original.key].(status := r.value.instance.status)] == r.world.objects;
    }
  }

  /** The stages of a first reconcile with nothing failing. */
  lemma FirstStages(w: World, original: KnativeKafka)
    requires WellKeyed(w) && Quiet(w)
    requires original.key in w.objects && w.objects[original.key] == original
    ensures var fs := WithFinalizer(original.finalizers);
            var r := ReconcileKnativeKafkaS(w, original);
            && r.value.err == QuietApply(w.env, original)
            && r.value.instance == original.(finalizers := fs, status := ReconciledStatus(original.status, r.value.err))
            && r.world.objects == w.objects[original.key := original.(finalizers := fs)]
            && r.world.live == Written(w.live, QuietWrites(w.env, original))
            && Grows(w, r.world)
  {
    var fs := WithFinalizer(original.finalizers);
    var i0 := original.(status := InitializeConditions(original.status));
    var e := EnsureFinalizersS(w, i0);
    var i1 := original.(finalizers := fs, status := InitializeConditions(original.status));
    QuietEnsureFinalizers(w, i0);
    ApplyKnativeKafkaQuiet(e.world, i1);
    InstallOutcomeInStatus(e.world, i1);
    StagesInOrder(w, original);
  }

  /** The two stages of `reconcileKnativeKafka`, the second run only when the
      first succeeded. */
  lemma StagesInOrder(w: World, inst: KnativeKafka)
    ensures var e := EnsureFinalizersS(w, inst.(status := InitializeConditions(inst.status)));
            ReconcileKnativeKafkaS(w, inst) ==
              if e.value.err.Some? then e else InstallKnativeKafkaS(e.world, e.value.instance)
  {
    var e := EnsureFinalizersS(w, inst.(status := InitializeConditions(inst.status)));
    if e.value.err.None? {
      assert RunStagesS(e.world, e.value.instance, Stages[1..]) == InstallKnativeKafkaS(e.world, e.value.instance) by {
        assert Stages[1..][0] == InstallStage && Stages[1..][1..] == [];
      }
    }
  }

  /** With nothing failing, `ensureFinalizers` stores the instance's list with
      the finalizer added. */
  lemma QuietEnsureFinalizers(w: World, inst: KnativeKafka)
    requires WellKeyed(w) && Quiet(w)
    requires inst.key in w.objects && w.objects[inst.key].finalizers == inst.finalizers && w.objects[inst.key].spec == inst.spec
    ensures var e := EnsureFinalizersS(w, inst);
            var fs := WithFinalizer(inst.finalizers);
            && e.value == Staged(inst.(finalizers := fs), None)
            && e.world.objects == w.objects[inst.key := w.objects[inst.key].(finalizers := fs)]
            && e.world.live == w.live
            && Grows(w, e.world)
  {
    EnsureFinalizersSpec(w, inst);
    var e := EnsureFinalizersS(w, inst);
    if FinalizerName in inst.finalizers {
      assert w.objects[inst.key].(finalizers := inst.finalizers) == w.objects[inst.key];
      assert w.objects[inst.key := w.objects[inst.key]] == w.objects;
    } else {
      var stored := w.objects[inst.key];
      assert stored.(finalizers := inst.finalizers + [FinalizerName], spec := inst.spec) == stored.(finalizers := inst.finalizers + [FinalizerName]);
    }
  }

  /** A reconcile of an object that already holds the finalizer and whose status
      already records what the install yields: nothing is written to the
      KnativeKafka, the store is unchanged, and the install outcome is returned. */
  lemma SettledReconcile(w: World, key: Key)
    requires WellKeyed(w) && Quiet(w)
    requires key in w.objects && !w.objects[key].deleting && FinalizerName in w.objects[key].finalizers
    requires w.objects[key].status == ReconciledStatus(w.objects[key].status, QuietApply(w.env, w.objects[key]))
    ensures var o := ReconcileS(w, key);
            && o.value == QuietApply(w.env, w.objects[key])
            && o.world.objects == w.objects
            && o.world.live == Written(w.live, QuietWrites(w.env, w.objects[key]))
            && CallsIn(w, o.world, {KafkaRead} + InstallClasses(KafkaChannel) + InstallClasses(KafkaSource))
  {
    var stored := w.objects[key];
    var g := GetS(w, key);
    IssueCalls(w, GetKafka(key));
    assert InitializeConditions(stored.status) == stored.status;
    assert stored.(status := InitializeConditions(stored.status)) == stored;
    var a := ApplyKnativeKafkaS(g.world, stored);
    ApplyKnativeKafkaCalls(g.world, stored);
    ApplyKnativeKafkaQuiet(g.world, stored);
    CallsInTrans(w, g.world, a.world, {KafkaRead}, InstallClasses(KafkaChannel) + InstallClasses(KafkaSource),
                 {KafkaRead} + InstallClasses(KafkaChannel) + InstallClasses(KafkaSource));
    var r := ReconcileKnativeKafkaS(g.world, stored);
    assert r == InstallKnativeKafkaS(g.world, stored);
    assert r.value.instance.status == stored.status;
    ReconcileNormal(w, key);
  }

  lemma ReconciledStatusIdempotent(s: KnativeKafkaStatus, err: Option<Error>)
    ensures ReconciledStatus(ReconciledStatus(s, err), err) == ReconciledStatus(s, err)
  {
  }

  /** Reconciling twice with nothing failing: the second run writes nothing to
      the KnativeKafka, leaves the store and the live resources as the first
      left them, and returns the same result. */
  lemma ReconcileIdempotent(w: World, key: Key)
    requires WellKeyed(w) && Quiet(w)
    requires key in w.objects && !w.objects[key].deleting
    ensures var o1 := ReconcileS(w, key);
            var o2 := ReconcileS(o1.world, key);
            && o2.value == o1.value
            && o2.world.objects == o1.world.objects
            && o2.world.live == o1.world.live
            && CallsIn(o1.world, o2.world, {KafkaRead} + InstallClasses(KafkaChannel) + InstallClasses(KafkaSource))
  {
    var original := w.objects[key];
    FirstReconcile(w, key);
    var o1 := ReconcileS(w, key);
    var stored := o1.world.objects[key];
    assert stored.key == key && stored.spec == original.spec;
    assert QuietApply(w.env, stored) == QuietApply(w.env, original);
    assert QuietWrites(w.env, stored) == QuietWrites(w.env, original);
    ReconciledStatusIdempotent(original.status, QuietApply(w.env, original));
    SettledReconcile(o1.world, key);
    WrittenTwice(w.live, QuietWrites(w.env, original));
  }

  // ---------------------------------------------------------------------------
  // Deletion when nothing fails.
  // ---------------------------------------------------------------------------

  lemma TransformKeepsIds(c: Component, owner: Key, m: seq<Resource>)
    ensures IdsOf(Transformed(c, owner, m)) == IdsOf(m)
  {
    var t := Transformed(c, owner, m);
    forall id | id in IdsOf(m) ensures id in IdsOf(t) {
      var r :| r in m && Id(r) == id;
      var i :| 0 <= i < |m| && m[i] == r;
      assert Id(t[i]) == id;
    }
    forall id | id in IdsOf(t) ensures id in IdsOf(m) {
      var r :| r in t && Id(r) == id;
      var i :| 0 <= i < |t| && t[i] == r;
      assert Id(m[i]) == id;
    }
  }

  /** The live resources `deleteKnativeKafka` removes: every resource of each
      enabled component's manifest. */
  function RemovedIds(env: Env, inst: KnativeKafka): set<ResourceId>
  {
    (if inst.spec.channel.enabled then IdsOf(env.channelManifest) else {})
    + (if inst.spec.source.enabled then IdsOf(env.sourceManifest) else {})
  }

  lemma DeleteComponentQuiet(w: World, c: Component, inst: KnativeKafka)
    requires Quiet(w)
    ensures var o := DeleteComponentS(w, c, inst);
            && o.value.None?
            && o.world.live == w.live - IdsOf(ManifestOf(w.env, c))
            && o.world.objects == w.objects
            && Grows(w, o.world)
  {
    var t := Transformed(c, inst.key, ManifestOf(w.env, c));
    var m := ManifestS(w, c, inst.key);
    ManifestShape(w, c, inst.key);
    assert m.value == Success(t);
    DeleteQuiet(m.world, c, t);
    TransformKeepsIds(c, inst.key, ManifestOf(w.env, c));
  }

  lemma DeleteKnativeKafkaQuiet(w: World, inst: KnativeKafka)
    requires Quiet(w)
    ensures var o := DeleteKnativeKafkaS(w, inst);
            && o.value.None?
            && o.world.live == w.live - RemovedIds(w.env, inst)
            && o.world.objects == w.objects
            && Grows(w, o.world)
  {
    var ch := if inst.spec.channel.enabled then DeleteComponentS(w, KafkaChannel, inst) else Out(w, None);
    if inst.spec.channel.enabled {
      DeleteComponentQuiet(w, KafkaChannel, inst);
    }
    if inst.spec.source.enabled {
      DeleteComponentQuiet(ch.world, KafkaSource, inst);
    }
  }

  /** `delete` with nothing failing: the enabled components' resources are
      removed, then the finalizer; an object left with no finalizer is gone. */
  lemma FinalizeQuiet(w: World, inst: KnativeKafka)
    requires WellKeyed(w) && Quiet(w)
    requires inst.key in w.objects && w.objects[inst.key] == inst && inst.deleting
    requires FinalizerName in inst.finalizers
    ensures var o := FinalizeS(w, inst);
            var rest := RemainingFinalizers(inst.finalizers);
            && o.value.None?
            && o.world.live == w.live - RemovedIds(w.env, inst)
            && (rest == [] ==> o.world.objects == w.objects - {inst.key})
            && (rest != [] ==> o.world.objects == w.objects[inst.key := inst.(finalizers := rest)])
            && Grows(w, o.world)
  {
    DeleteKnativeKafkaQuiet(w, inst);
  }

  /** Deleting with nothing failing completes: the components are removed, the
      controller's finalizer is removed (the object disappears once no
      finalizer is left), and a further reconcile changes nothing. */
  lemma DeletionCompletes(w: World, key: Key)
    requires WellKeyed(w) && Quiet(w)
    requires key in w.objects && w.objects[key].deleting
    ensures var original := w.objects[key];
            var rest := RemainingFinalizers(original.finalizers);
            var o := ReconcileS(w, key);
            var again := ReconcileS(o.world, key);
            && o.value.None?
            && (FinalizerName !in original.finalizers ==> o.world == w.(trace := w.trace + [GetKafka(key)]))
            && (FinalizerName in original.finalizers ==>
                  && o.world.live == w.live - RemovedIds(w.env, original)
                  && (rest == [] ==> o.world.objects == w.objects - {key})
                  && (rest != [] ==> o.world.objects == w.objects[key := original.(finalizers := rest)]))
            && again == Out(o.world.(trace := o.world.trace + [GetKafka(key)]), None)
  {
    var original := w.objects[key];
    ReconcileDeleting(w, key);
    var g := GetS(w, key);
    var o := ReconcileS(w, key);
    if FinalizerName in original.finalizers {
      FinalizeQuiet(g.world, original);
      var rest := RemainingFinalizers(original.finalizers);
      if rest == [] {
        ReconcileFetchFailure(o.world, key);
      } else {
        assert FinalizerName !in rest;
        ReconcileDeleting(o.world, key);
        FinalizeWithoutFinalizer(GetS(o.world, key).world, o.world.objects[key]);
      }
    } else {
      ReconcileDeleting(g.world, key);
      FinalizeWithoutFinalizer(GetS(g.world, key).world, original);
    }
  }

  /** A failed deletion attempt leaves the store as it was: the finalizer stays. */
  lemma FailedFinalizeKeepsStore(w: World, inst: KnativeKafka)
    requires WellKeyed(w)
    requires FinalizeS(w, inst).value.Some?
    ensures FinalizeS(w, inst).world.objects == w.objects
  {
    if DeleteKnativeKafkaS(w, inst).value.Some? {
      CleanupFailureKeepsFinalizer(w, inst);
    } else {
      FinalizerRemoval(w, inst);
    }
  }

  /** Deletion survives failures: whatever step of a deletion failed, once calls
      stop failing the next reconcile deletes the components again (a resource
      already gone is no error) and removes the finalizer. */
  lemma DeletionRetried(w: World, key: Key)
    requires WellKeyed(w)
    requires key in w.objects && w.objects[key].deleting
    requires ReconcileS(w, key).value.Some? && Quiet(ReconcileS(w, key).world)
    ensures var original := w.objects[key];
            var rest := RemainingFinalizers(original.finalizers);
            var o := ReconcileS(w, key);
            var retry := ReconcileS(o.world, key);
            && retry.value.None?
            && (FinalizerName in original.finalizers ==>
                  && retry.world.live == o.world.live - RemovedIds(w.env, original)
                  && (rest == [] ==> retry.world.objects == w.objects - {key})
                  && (rest != [] ==> retry.world.objects == w.objects[key := original.(finalizers := rest)]))
  {
    var g := GetS(w, key);
    var o := ReconcileS(w, key);
    if |w.trace| !in w.env.faults {
      ReconcileDeleting(w, key);
      FailedFinalizeKeepsStore(g.world, w.objects[key]);
    }
    DeletionPathOnly(w, key);
    assert o.world.env == w.env && o.world.objects == w.objects;
    DeletionCompletes(o.world, key);
  }

  // ---------------------------------------------------------------------------
  // Manifests and readiness in detail.
  // ---------------------------------------------------------------------------

  /** The transformer choice: every KafkaChannel resource gets an owner
      reference and the owner annotations, every KafkaSource resource the owner
      annotations only; identity and body are kept, in manifest order. A failed
      load or transform is reported as a failure to load. */
  lemma ManifestOwnership(w: World, c: Component, owner: Key)
    ensures var o := ManifestS(w, c, owner);
            var m := ManifestOf(w.env, c);
            && (o.value.Failure? ==> o.value.error.Wrapped? && o.value.error.context == "failed to load " + ComponentName(c) + " manifest")
            && (o.value.Success? ==>
                  && |o.value.value| == |m|
                  && forall i :: 0 <= i < |m| ==>
                       && Id(o.value.value[i]) == Id(m[i])
                       && o.value.value[i].body == m[i].body
                       && o.value.value[i].ownerAnnotation == Some(owner)
                       && o.value.value[i].ownerRef == (if c == KafkaChannel then Some(owner) else m[i].ownerRef))
  {
  }

  /** The Deployment filter keeps manifest order: it distributes over
      concatenation and keeps exactly the resources of kind Deployment. */
  lemma {:induction false} DeploymentsAppend(a: seq<Resource>, b: seq<Resource>)
    ensures Deployments(a + b) == Deployments(a) + Deployments(b)
    decreases |a|
  {
    if a == [] {
      assert a + b == b;
    } else {
      assert (a + b)[0] == a[0] && (a + b)[1..] == a[1..] + b;
      DeploymentsAppend(a[1..], b);
    }
  }

  lemma DeploymentsSingle(r: Resource)
    ensures Deployments([r]) == if r.kind == DeploymentKind then [r] else []
  {
    assert [r][1..] == [];
  }

  /** Of two deployments, the second reporting Available=False: with nothing
      failing the check stops at the second, after checking both, and a
      resource of another kind in between is not looked at. */
  lemma SecondUnavailableFails(w: World, c: Component, d1: Resource, svc: Resource, d2: Resource, i: nat)
    requires Quiet(w)
    requires d1.kind == DeploymentKind && d2.kind == DeploymentKind && svc.kind != DeploymentKind
    requires DeploymentKey(d1) in w.env.deployments && Available(w.env.deployments[DeploymentKey(d1)])
    requires DeploymentKey(d2) in w.env.deployments
    requires var conds := w.env.deployments[DeploymentKey(d2)];
             i < |conds| && conds[i] == DeploymentCondition(DeploymentAvailable, ConditionFalse)
    ensures var o := CheckDeploymentsS(w, c, [d1, svc, d2]);
            && o.value == Some(NotReady(d2.name, d2.namespace))
            && o.world.trace == w.trace + [Call.GetDeployment(c, DeploymentKey(d1)), Call.GetDeployment(c, DeploymentKey(d2))]
  {
    DeploymentsSkipOther(d1, svc, d2);
    var g1 := GetDeploymentS(w, c, DeploymentKey(d1));
    assert g1.value.Success? && Available(g1.value.value);
    assert [d1, d2][1..] == [d2];
    var g2 := GetDeploymentS(g1.world, c, DeploymentKey(d2));
    assert g2.value.Success? && !Available(g2.value.value);
    assert DeploymentsCheckS(g1.world, c, [d2]) == Out(g2.world, Some(NotReady(d2.name, d2.namespace)));
    assert DeploymentsCheckS(w, c, [d1, d2]) == DeploymentsCheckS(g1.world, c, [d2]);
  }

  /** The Deployment filter over [d1, svc, d2] keeps d1 and d2. */
  lemma DeploymentsSkipOther(d1: Resource, svc: Resource, d2: Resource)
    requires d1.kind == DeploymentKind && d2.kind == DeploymentKind && svc.kind != DeploymentKind
    ensures Deployments([d1, svc, d2]) == [d1, d2]
  {
    DeploymentsAppend([d1], [svc, d2]);
    DeploymentsAppend([svc], [d2]);
    DeploymentsSingle(d1);
    DeploymentsSingle(svc);
    DeploymentsSingle(d2);
    assert [d1] + [svc, d2] == [d1, svc, d2];
    assert [svc] + [d2] == [svc, d2];
  }
}
