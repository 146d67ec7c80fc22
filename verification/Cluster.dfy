/** The cluster objects the operator works on, the builders of its two child objects, and the API calls
    it makes, for the objects that belong to one workload name. */
module Cluster {
  import opened Options
  import Decimal

  const FINALIZER := "aperture.ai/gpuworkload-finalizer"

  datatype Key = Key(namespace: string, name: string)

  datatype Spec = Spec(modelName: string, gpu: int, partitionMode: string, tokenQuota: int, kvCacheGB: int)

  datatype Phase = Unset | Pending | Running | Completed | Failed

  datatype Message =
    | NoMessage
    | CreationFailed(error: ApiError)
    | DeploymentCreated
    | ServerRunning(ready: int, desired: int)
    | ReplicaFailure(text: string)
    | PodsStartingUp
    | WaitingForPods

  datatype Status = Status(phase: Phase, podName: string, message: Message)

  /** `version` is the resource version, `deleting` says whether the deletion timestamp is set. */
  datatype Workload = Workload(
    uid: nat, version: nat, deleting: bool, finalizers: set<string>, spec: Spec, status: Status)

  datatype PodTemplate = PodTemplate(
    labels: map<string, string>, env: map<string, string>,
    gpuLimits: map<string, string>, gpuRequests: map<string, string>)

  datatype Condition = Condition(kind: string, status: string, message: string)

  /** `owner` is the uid in the controller reference. */
  datatype Deployment = Deployment(
    owner: nat, labels: map<string, string>, selector: map<string, string>, template: PodTemplate,
    replicas: Option<int>, ready: int, unavailable: int, conditions: seq<Condition>)

  datatype Service = Service(owner: nat, labels: map<string, string>, selector: map<string, string>)

  datatype Store = Store(
    revision: nat,
    workloads: map<Key, Workload>,
    deployments: map<Key, Deployment>,
    services: map<Key, Service>)

  // ----- names and builders

  function DeploymentName(k: Key): string { k.name + "-inference" }

  function DeploymentKey(k: Key): Key { Key(k.namespace, DeploymentName(k)) }

  function ServiceKey(k: Key): Key { Key(k.namespace, k.name + "-svc") }

  function Selector(k: Key): map<string, string> {
    map["app" := "aperture-inference", "aperture.ai/workload" := k.name]
  }

  function DeploymentLabels(k: Key, spec: Spec): map<string, string> {
    map["app" := "aperture-inference", "aperture.ai/workload" := k.name,
        "aperture.ai/partition-mode" := spec.partitionMode]
  }

  /** The GPU entry of the resource limits and requests. */
  function GpuQuantity(spec: Spec): map<string, string> {
    if spec.gpu > 0 then map["nvidia.com/gpu" := Decimal.Print(spec.gpu)] else map[]
  }

  function Template(k: Key, spec: Spec): PodTemplate {
    PodTemplate(
      DeploymentLabels(k, spec),
      map[
        "MODEL_PATH" := spec.modelName,
        "TOKEN_QUOTA" := Decimal.Print(spec.tokenQuota),
        "KV_CACHE_GB" := Decimal.Print(spec.kvCacheGB),
        "GPU_PARTITION_MODE" := spec.partitionMode,
        "USE_GPU" := if spec.gpu == 0 then "false" else "true"],
      GpuQuantity(spec),
      GpuQuantity(spec))
  }

  /** The Deployment as sent to the API server, with its controller reference set. */
  function BuildDeployment(k: Key, w: Workload): Deployment {
    Deployment(w.uid, DeploymentLabels(k, w.spec), Selector(k), Template(k, w.spec), Some(1), 0, 0, [])
  }

  function BuildService(k: Key, w: Workload): Service {
    Service(w.uid, Selector(k), Selector(k))
  }

  /** Label selection: every selector entry is among the labels. */
  predicate Selects(selector: map<string, string>, labels: map<string, string>) {
    forall l :: l in selector ==> l in labels && labels[l] == selector[l]
  }

  /** `ValidateCreate`, which `ValidateUpdate` repeats. */
  predicate Accepts(spec: Spec) {
    && spec.modelName != ""
    && 0 <= spec.gpu <= 8
    && (spec.partitionMode == "MPS" || spec.partitionMode == "MIG")
    && 1 <= spec.tokenQuota <= 100000
    && spec.kvCacheGB >= 1
  }

  // ----- the part of the store that belongs to one workload name

  datatype View = View(
    revision: nat, workload: Option<Workload>, deployment: Option<Deployment>, service: Option<Service>)

  function Lookup<V>(m: map<Key, V>, k: Key): Option<V> {
    if k in m then Some(m[k]) else None
  }

  function Assign<V>(m: map<Key, V>, k: Key, o: Option<V>): map<Key, V> {
    if o.Some? then m[k := o.value] else m - {k}
  }

  function ViewOf(s: Store, k: Key): View {
    View(s.revision, Lookup(s.workloads, k), Lookup(s.deployments, DeploymentKey(k)), Lookup(s.services, ServiceKey(k)))
  }

  function Put(s: Store, k: Key, v: View): Store {
    Store(
      v.revision,
      Assign(s.workloads, k, v.workload),
      Assign(s.deployments, DeploymentKey(k), v.deployment),
      Assign(s.services, ServiceKey(k), v.service))
  }

  lemma AppendInjective(a: string, b: string, suffix: string)
    requires a + suffix == b + suffix
    ensures a == b
  {
    assert |a| == |b|;
    assert (a + suffix)[..|a|] == a && (b + suffix)[..|b|] == b;
  }

  /** Distinct workloads have distinct child names. */
  lemma ChildNamesInjective(j: Key, k: Key)
    requires DeploymentKey(j) == DeploymentKey(k) || ServiceKey(j) == ServiceKey(k)
    ensures j == k
  {
    if DeploymentKey(j) == DeploymentKey(k) {
      AppendInjective(j.name, k.name, "-inference");
    } else {
      AppendInjective(j.name, k.name, "-svc");
    }
  }

  /** Writing one view back changes that view only. */
  lemma PutView(s: Store, k: Key, v: View, j: Key)
    ensures ViewOf(Put(s, k, v), k) == v
    ensures j != k ==> ViewOf(Put(s, k, v), j) == ViewOf(s, j).(revision := v.revision)
  {
    if j != k {
      if DeploymentKey(j) == DeploymentKey(k) || ServiceKey(j) == ServiceKey(k) {
        ChildNamesInjective(j, k);
      }
    }
  }

  // ----- API calls

  datatype ApiError = NotFound | Conflict | AlreadyExists | Forbidden | Unavailable

  /** What may go wrong with a call that reaches the network: nothing, the request is lost, or the call takes
      effect and the reply is lost. */
  datatype Fault = NoFault | LostRequest | LostReply

  datatype Reply = Reply(view: View, error: Option<ApiError>)

  function Deliver(v: View, fault: Fault, reply: Reply): Reply {
    match fault
    case NoFault => reply
    case LostRequest => Reply(v, Some(Unavailable))
    case LostReply => Reply(reply.view, Some(if reply.error.Some? then reply.error.value else Unavailable))
  }

  /** A deleted object disappears with its last finalizer. */
  function Settle(w: Workload): Option<Workload> {
    if w.deleting && w.finalizers == {} then None else Some(w)
  }

  /** `Update` of the object: optimistic locking on the resource version; the status and the deletion mark are
      not the client's to change, and no finalizer can be added to a deleted object. */
  function UpdateWorkload(v: View, w: Workload): Reply {
    if v.workload.None? then Reply(v, Some(NotFound))
    else
      var stored := v.workload.value;
      if stored.version != w.version then Reply(v, Some(Conflict))
      else if stored.deleting && !(w.finalizers <= stored.finalizers) then Reply(v, Some(Forbidden))
      else
        var next := stored.(finalizers := w.finalizers, spec := w.spec, version := v.revision + 1);
        Reply(v.(workload := Settle(next), revision := v.revision + 1), None)
  }

  /** `Status().Update`: only the status is taken over. Writing what is already there leaves the object alone. */
  function UpdateStatus(v: View, w: Workload): Reply {
    if v.workload.None? then Reply(v, Some(NotFound))
    else
      var stored := v.workload.value;
      if stored.version != w.version then Reply(v, Some(Conflict))
      else if stored.status == w.status then Reply(v, None)
      else
        var next := stored.(status := w.status, version := v.revision + 1);
        Reply(v.(workload := Some(next), revision := v.revision + 1), None)
  }

  function CreateDeployment(v: View, d: Deployment): Reply {
    if v.deployment.Some? then Reply(v, Some(AlreadyExists))
    else Reply(v.(deployment := Some(d), revision := v.revision + 1), None)
  }

  function CreateService(v: View, s: Service): Reply {
    if v.service.Some? then Reply(v, Some(AlreadyExists))
    else Reply(v.(service := Some(s), revision := v.revision + 1), None)
  }

  function DeleteDeployment(v: View): Reply {
    if v.deployment.None? then Reply(v, Some(NotFound))
    else Reply(v.(deployment := None, revision := v.revision + 1), None)
  }

  function DeleteService(v: View): Reply {
    if v.service.None? then Reply(v, Some(NotFound))
    else Reply(v.(service := None, revision := v.revision + 1), None)
  }

  // ----- what users and the rest of the cluster may do

  datatype Change =
    | CreateWorkload(spec: Spec, finalizers: set<string>)
    | EditWorkload(spec: Spec, finalizers: set<string>)
    | MarkDeleted
    | RemoveDeployment
    | RemoveService
    | ReportStatus(ready: int, unavailable: int, conditions: seq<Condition>)
    | Scale(replicas: Option<int>)

  /** A change the API server refuses has no effect. */
  function Apply(v: View, c: Change): View {
    var next := v.revision + 1;
    match c
    case CreateWorkload(spec, finalizers) =>
      if v.workload.Some? || !Accepts(spec) then v
      else
        var w := Workload(next, next, false, finalizers, spec, Status(Unset, "", NoMessage));
        v.(workload := Some(w), revision := next)
    case EditWorkload(spec, finalizers) =>
      if v.workload.None? || !Accepts(spec) then v
      else
        var w := v.workload.value;
        if FINALIZER in w.finalizers && FINALIZER !in finalizers then v
        else if w.deleting && !(finalizers <= w.finalizers) then v
        else v.(workload := Settle(w.(spec := spec, finalizers := finalizers, version := next)), revision := next)
    case MarkDeleted =>
      if v.workload.None? || v.workload.value.deleting then v
      else v.(workload := Settle(v.workload.value.(deleting := true, version := next)), revision := next)
    case RemoveDeployment => DeleteDeployment(v).view
    case RemoveService => DeleteService(v).view
    case ReportStatus(ready, unavailable, conditions) =>
      if v.deployment.None? then v
      else
        var d := v.deployment.value.(ready := ready, unavailable := unavailable, conditions := conditions);
        v.(deployment := Some(d), revision := next)
    case Scale(replicas) =>
      if v.deployment.None? then v
      else v.(deployment := Some(v.deployment.value.(replicas := replicas)), revision := next)
  }
}
