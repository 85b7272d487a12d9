/**
  The KnativeKafka custom resource (knative-operator/pkg/apis/operator/v1alpha1):
  its spec toggles, its status, and the metadata the controller reads and edits.
 */
module KafkaApi {

  /** A namespaced object name. */
  datatype Key = Key(namespace: string, name: string)

  datatype Source = Source(enabled: bool)

  datatype Channel = Channel(enabled: bool, bootstrapServers: string, setAsDefaultChannelProvisioner: bool)

  datatype KnativeKafkaSpec = KnativeKafkaSpec(source: Source, channel: Channel)

  /** The InstallSucceeded condition of the status. */
  datatype InstallCondition =
    | Absent                      // not yet initialised
    | InstallUnknown
    | InstallSucceeded
    | InstallFailed(message: string)

  datatype KnativeKafkaStatus = KnativeKafkaStatus(install: InstallCondition, version: string)

  /** A stored KnativeKafka: metadata (key, finalizer list, whether a deletion
      timestamp is set), spec and status. */
  datatype KnativeKafka = KnativeKafka(
    key: Key,
    finalizers: seq<string>,
    deleting: bool,
    spec: KnativeKafkaSpec,
    status: KnativeKafkaStatus)

  /** `Status.InitializeConditions()`: an absent condition becomes Unknown;
      anything already set is kept. */
  function InitializeConditions(s: KnativeKafkaStatus): (r: KnativeKafkaStatus)
    ensures r.install != Absent && r.version == s.version
    ensures s.install != Absent ==> r == s
  {
    if s.install == Absent then s.(install := InstallUnknown) else s
  }

  /** `Status.MarkInstallFailed(msg)`. */
  function MarkInstallFailed(s: KnativeKafkaStatus, msg: string): KnativeKafkaStatus
  {
    s.(install := InstallFailed(msg))
  }

  /** `Status.MarkInstallSucceeded()`. */
  function MarkInstallSucceeded(s: KnativeKafkaStatus): KnativeKafkaStatus
  {
    s.(install := InstallSucceeded)
  }

  /** An in-memory KnativeKafka that the controller edits in place (the
      `*KnativeKafka` named `instance`): its finalizer list and its status change. */
  class Instance {
    const key: Key
    var finalizers: seq<string>
    const deleting: bool
    const spec: KnativeKafkaSpec
    var status: KnativeKafkaStatus

    function Value(): KnativeKafka
      reads this
    {
      KnativeKafka(key, finalizers, deleting, spec, status)
    }

    /** `DeepCopy()` of a fetched object. */
    constructor (obj: KnativeKafka)
      ensures Value() == obj
    {
      key, finalizers, deleting, spec, status := obj.key, obj.finalizers, obj.deleting, obj.spec, obj.status;
    }

    method SetFinalizers(fs: seq<string>)
      modifies this
      ensures Value() == old(Value()).(finalizers := fs)
    {
      finalizers := fs;
    }

    method InitializeStatusConditions()
      modifies this
      ensures Value() == old(Value()).(status := InitializeConditions(old(status)))
    {
      status := InitializeConditions(status);
    }

    method MarkStatusInstallFailed(msg: string)
      modifies this
      ensures Value() == old(Value()).(status := MarkInstallFailed(old(status), msg))
    {
      status := MarkInstallFailed(status, msg);
    }

    method MarkStatusInstallSucceeded()
      modifies this
      ensures Value() == old(Value()).(status := MarkInstallSucceeded(old(status)))
    {
      status := MarkInstallSucceeded(status);
    }
  }
}
