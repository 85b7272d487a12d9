/**
  The abstract cluster the controller talks to: a store of KnativeKafka
  objects keyed by namespace and name, the live resources created from the
  manifests, the deployments' server-computed conditions, and the two
  manifests read from disk. Every fallible operation is one `Call` appended to
  the world's trace; the fault oracle `faults` decides, by the call's position
  in the trace, whether it fails and with what message. This stands for
  network errors, rate limiting and optimistic-concurrency conflicts alike.
 */
module Cluster {
  import opened Wrappers
  import opened KafkaApi

  datatype Component = KafkaChannel | KafkaSource

  /** Apply and delete are keyed by kind, namespace and name. */
  datatype ResourceId = ResourceId(kind: string, namespace: string, name: string)

  /** A manifest resource: its identity, an opaque body, and the two ownership
      markers the transformers set (a native owner reference, and the
      owner-name/owner-namespace annotation pair). */
  datatype Resource = Resource(
    kind: string,
    namespace: string,
    name: string,
    body: string,
    ownerRef: Option<Key>,
    ownerAnnotation: Option<Key>)

  function Id(r: Resource): ResourceId
  {
    ResourceId(r.kind, r.namespace, r.name)
  }

  datatype ConditionStatus = ConditionTrue | ConditionFalse | ConditionUnknown

  datatype DeploymentCondition = DeploymentCondition(conditionType: string, status: ConditionStatus)

  const DeploymentKind: string := "Deployment"
  const DeploymentAvailable: string := "Available"

  datatype Error =
    | ApiError(message: string)                 // a failed call, with its text
    | NotFound(resource: string, name: string)  // the API server's not-found
    | NotReady(name: string, namespace: string) // a deployment not available
    | Wrapped(context: string, cause: Error)    // fmt.Errorf("<context>: %w", cause)

  /** The error's text, `err.Error()`. */
  function Message(e: Error): string
  {
    match e
    case ApiError(m) => m
    case NotFound(resource, name) => resource + " \"" + name + "\" not found"
    case NotReady(name, namespace) => "Deployment \"" + name + "\"/\"" + namespace + "\" not ready"
    case Wrapped(context, cause) => context + ": " + Message(cause)
  }

  const KafkaResource: string := "knativekafkas.operator.serverless.openshift.io"
  const DeploymentResource: string := "deployments.apps"

  /** One operation as it was issued. */
  datatype Call =
    | GetKafka(key: Key)
    | UpdateKafka(key: Key, finalizers: seq<string>)
    | UpdateKafkaStatus(key: Key, status: KnativeKafkaStatus)
    | LoadManifest(component: Component)
    | TransformManifest(component: Component)
    | ApplyResource(component: Component, resource: Resource)
    | DeleteResource(component: Component, id: ResourceId)
    | GetDeployment(component: Component, deployment: Key)

  /** What the controller cannot change: the deployments' conditions (computed
      by the server), the manifests on disk, and the fault oracle. */
  datatype Env = Env(
    deployments: map<Key, seq<DeploymentCondition>>,
    channelManifest: seq<Resource>,
    sourceManifest: seq<Resource>,
    faults: map<nat, string>)

  datatype World = World(
    env: Env,
    objects: map<Key, KnativeKafka>,
    live: map<ResourceId, Resource>,
    trace: seq<Call>)

  /** The world after an operation, and what the operation returned. */
  datatype Out<T> = Out(world: World, value: T)

  /** Issues call `c`: logs it, and fails it when the oracle says so. */
  function IssueS(w: World, c: Call): (o: Out<Option<Error>>)
    ensures o.world == w.(trace := w.trace + [c])
    ensures o.value.Some? <==> |w.trace| in w.env.faults
  {
    var n := |w.trace|;
    Out(w.(trace := w.trace + [c]), if n in w.env.faults then Some(ApiError(w.env.faults[n])) else None)
  }

  /** `client.Get` of a KnativeKafka. */
  function GetS(w: World, key: Key): Out<Result<KnativeKafka, Error>>
  {
    var o := IssueS(w, GetKafka(key));
    if o.value.Some? then Out(o.world, Failure(o.value.value))
    else if key in w.objects then Out(o.world, Success(w.objects[key]))
    else Out(o.world, Failure(NotFound(KafkaResource, key.name)))
  }

  /** `client.Update`: writes metadata and spec, not status (the status is a
      sub-resource). An object marked for deletion whose finalizer list becomes
      empty is removed from the store. */
  function UpdateS(w: World, obj: KnativeKafka): Out<Option<Error>>
  {
    var o := IssueS(w, UpdateKafka(obj.key, obj.finalizers));
    if o.value.Some? then o
    else if obj.key !in w.objects then Out(o.world, Some(NotFound(KafkaResource, obj.key.name)))
    else
      var stored := w.objects[obj.key].(finalizers := obj.finalizers, spec := obj.spec);
      var objects := if stored.deleting && stored.finalizers == [] then w.objects - {obj.key}
                     else w.objects[obj.key := stored];
      Out(o.world.(objects := objects), None)
  }

  /** `client.Status().Update`: writes the status only. */
  function UpdateStatusS(w: World, obj: KnativeKafka): Out<Option<Error>>
  {
    var o := IssueS(w, UpdateKafkaStatus(obj.key, obj.status));
    if o.value.Some? then o
    else if obj.key !in w.objects then Out(o.world, Some(NotFound(KafkaResource, obj.key.name)))
    else Out(o.world.(objects := w.objects[obj.key := w.objects[obj.key].(status := obj.status)]), None)
  }

  function ManifestOf(env: Env, c: Component): seq<Resource>
  {
    match c
    case KafkaChannel => env.channelManifest
    case KafkaSource => env.sourceManifest
  }

  /** Loading a manifest from its configured path. */
  function LoadS(w: World, c: Component): Out<Result<seq<Resource>, Error>>
  {
    var o := IssueS(w, LoadManifest(c));
    if o.value.Some? then Out(o.world, Failure(o.value.value))
    else Out(o.world, Success(ManifestOf(w.env, c)))
  }

  /** The transformers each component's manifest gets: KafkaChannel resources
      get an owner reference and the owner annotations, KafkaSource resources
      the owner annotations only. */
  function TransformResource(c: Component, owner: Key, r: Resource): (t: Resource)
    ensures Id(t) == Id(r) && t.body == r.body
    ensures t.ownerAnnotation == Some(owner)
    ensures t.ownerRef == if c == KafkaChannel then Some(owner) else r.ownerRef
  {
    match c
    case KafkaChannel => r.(ownerRef := Some(owner), ownerAnnotation := Some(owner))
    case KafkaSource => r.(ownerAnnotation := Some(owner))
  }

  function Transformed(c: Component, owner: Key, m: seq<Resource>): (r: seq<Resource>)
    ensures |r| == |m|
    ensures forall i :: 0 <= i < |m| ==> r[i] == TransformResource(c, owner, m[i])
  {
    if m == [] then [] else [TransformResource(c, owner, m[0])] + Transformed(c, owner, m[1..])
  }

  /** `manifest.Transform(...)`: a new, transformed copy of the resources. */
  function TransformS(w: World, c: Component, owner: Key, m: seq<Resource>): Out<Result<seq<Resource>, Error>>
  {
    var o := IssueS(w, TransformManifest(c));
    if o.value.Some? then Out(o.world, Failure(o.value.value))
    else Out(o.world, Success(Transformed(c, owner, m)))
  }

  /** `manifest.Apply()`: create-or-update of every resource in order, stopping
      at the first failure. */
  function ApplyS(w: World, c: Component, rs: seq<Resource>): Out<Option<Error>>
    decreases |rs|
  {
    if rs == [] then Out(w, None)
    else
      var o := IssueS(w, ApplyResource(c, rs[0]));
      if o.value.Some? then o
      else ApplyS(o.world.(live := w.live[Id(rs[0]) := rs[0]]), c, rs[1..])
  }

  /** `manifest.Delete()`: deletes every resource in order, stopping at the
      first failure; a resource that is already gone is not an error. */
  function DeleteS(w: World, c: Component, rs: seq<Resource>): Out<Option<Error>>
    decreases |rs|
  {
    if rs == [] then Out(w, None)
    else
      var o := IssueS(w, DeleteResource(c, Id(rs[0])));
      if o.value.Some? then o
      else DeleteS(o.world.(live := w.live - {Id(rs[0])}), c, rs[1..])
  }

  /** `client.Get` of a Deployment: its current conditions. */
  function GetDeploymentS(w: World, c: Component, key: Key): Out<Result<seq<DeploymentCondition>, Error>>
  {
    var o := IssueS(w, GetDeployment(c, key));
    if o.value.Some? then Out(o.world, Failure(o.value.value))
    else if key in w.env.deployments then Out(o.world, Success(w.env.deployments[key]))
    else Out(o.world, Failure(NotFound(DeploymentResource, key.name)))
  }

  /** The client and manifest provider, over the cluster state. */
  class Client {
    const env: Env
    var objects: map<Key, KnativeKafka>
    var live: map<ResourceId, Resource>
    var trace: seq<Call>

    function State(): World
      reads this
    {
      World(env, objects, live, trace)
    }

    constructor (w: World)
      ensures State() == w
    {
      env, objects, live, trace := w.env, w.objects, w.live, w.trace;
    }

    method Issue(c: Call) returns (fault: Option<Error>)
      modifies this`trace
      ensures Out(State(), fault) == IssueS(old(State()), c)
    {
      var n := |trace|;
      trace := trace + [c];
      fault := if n in env.faults then Some(ApiError(env.faults[n])) else None;
    }

    method Get(key: Key) returns (r: Result<KnativeKafka, Error>)
      modifies this`trace
      ensures Out(State(), r) == GetS(old(State()), key)
    {
      var fault := Issue(GetKafka(key));
      if fault.Some? {
        r := Failure(fault.value);
      } else if key in objects {
        r := Success(objects[key]);
      } else {
        r := Failure(NotFound(KafkaResource, key.name));
      }
    }

    method Update(obj: KnativeKafka) returns (err: Option<Error>)
      modifies this`trace, this`objects
      ensures Out(State(), err) == UpdateS(old(State()), obj)
    {
      err := Issue(UpdateKafka(obj.key, obj.finalizers));
      if err.None? {
        if obj.key !in objects {
          err := Some(NotFound(KafkaResource, obj.key.name));
        } else {
          var stored := objects[obj.key].(finalizers := obj.finalizers, spec := obj.spec);
          if stored.deleting && stored.finalizers == [] {
            objects := objects - {obj.key};
          } else {
            objects := objects[obj.key := stored];
          }
        }
      }
    }

    method UpdateStatus(obj: KnativeKafka) returns (err: Option<Error>)
      modifies this`trace, this`objects
      ensures Out(State(), err) == UpdateStatusS(old(State()), obj)
    {
      err := Issue(UpdateKafkaStatus(obj.key, obj.status));
      if err.None? {
        if obj.key !in objects {
          err := Some(NotFound(KafkaResource, obj.key.name));
        } else {
          objects := objects[obj.key := objects[obj.key].(status := obj.status)];
        }
      }
    }

    method Load(c: Component) returns (r: Result<seq<Resource>, Error>)
      modifies this`trace
      ensures Out(State(), r) == LoadS(old(State()), c)
    {
      var fault := Issue(LoadManifest(c));
      r := if fault.Some? then Failure(fault.value) else Success(ManifestOf(env, c));
    }

    method Transform(c: Component, owner: Key, m: seq<Resource>) returns (r: Result<seq<Resource>, Error>)
      modifies this`trace
      ensures Out(State(), r) == TransformS(old(State()), c, owner, m)
    {
      var fault := Issue(TransformManifest(c));
      if fault.Some? {
        return Failure(fault.value);
      }
      r := Success(Transformed(c, owner, m));
    }

    method Apply(c: Component, rs: seq<Resource>) returns (err: Option<Error>)
      modifies this`trace, this`live
      ensures Out(State(), err) == ApplyS(old(State()), c, rs)
    {
      var i := 0;
      while i < |rs|
        invariant 0 <= i <= |rs|
        invariant ApplyS(old(State()), c, rs) == ApplyS(State(), c, rs[i..])
      {
        assert rs[i..][0] == rs[i] && rs[i..][1..] == rs[i + 1..];
        var fault := Issue(ApplyResource(c, rs[i]));
        if fault.Some? {
          return fault;
        }
        live := live[Id(rs[i]) := rs[i]];
        i := i + 1;
      }
      return None;
    }

    method Delete(c: Component, rs: seq<Resource>) returns (err: Option<Error>)
      modifies this`trace, this`live
      ensures Out(State(), err) == DeleteS(old(State()), c, rs)
    {
      var i := 0;
      while i < |rs|
        invariant 0 <= i <= |rs|
        invariant DeleteS(old(State()), c, rs) == DeleteS(State(), c, rs[i..])
      {
        assert rs[i..][0] == rs[i] && rs[i..][1..] == rs[i + 1..];
        var fault := Issue(DeleteResource(c, Id(rs[i])));
        if fault.Some? {
          return fault;
        }
        live := live - {Id(rs[i])};
        i := i + 1;
      }
      return None;
    }

    method GetDeployment(c: Component, key: Key) returns (r: Result<seq<DeploymentCondition>, Error>)
      modifies this`trace
      ensures Out(State(), r) == GetDeploymentS(old(State()), c, key)
    {
      var fault := Issue(Call.GetDeployment(c, key));
      if fault.Some? {
        r := Failure(fault.value);
      } else if key in env.deployments {
        r := Success(env.deployments[key]);
      } else {
        r := Failure(NotFound(DeploymentResource, key.name));
      }
    }
  }
}
