/** One reconcile pass as a state machine: between any two API calls of a pass, users, the cluster, the passes
    of other workloads and a crash of the operator may intervene, and every call may fail. */
module Controller {
  import opened Options
  import opened Cluster

  datatype PassResult = NoPass | Finished | RequeueNow | Errored(error: ApiError) | RetryLater(error: ApiError)

  /** The next step of a pass, with the local variables that are live there. `w` is always the workload as the
      pass fetched it, `d` the Deployment as it was read. */
  datatype Pc =
    | Idle(last: PassResult)
    | GetWorkload
    | CleanupGetDeployment(w: Workload)
    | CleanupDeleteDeployment(w: Workload)
    | CleanupGetService(w: Workload)
    | CleanupDeleteService(w: Workload)
    | RemoveFinalizer(w: Workload)
    | AddFinalizer(w: Workload)
    | GetDeployment(w: Workload)
    | SetDeploymentOwner(w: Workload)
    | SendDeployment(w: Workload)
    | GetService(w: Workload, d: Deployment)
    | SetServiceOwner(w: Workload, d: Deployment)
    | SendService(w: Workload, d: Deployment)
    | WriteStatus(w: Workload, status: Status)

  function AfterFetch(w: Workload): Pc {
    if w.deleting then
      if FINALIZER in w.finalizers then CleanupGetDeployment(w) else Idle(Finished)
    else if FINALIZER !in w.finalizers then AddFinalizer(w)
    else GetDeployment(w)
  }

  function Desired(d: Deployment): int {
    if d.replicas.Some? then d.replicas.value else 1
  }

  predicate IsReplicaFailure(c: Condition) {
    c.kind == "ReplicaFailure" && c.status == "True"
  }

  /** The message of the first replica failure. */
  function FailureMessage(conditions: seq<Condition>): Option<string> {
    if conditions == [] then None
    else if IsReplicaFailure(conditions[0]) then Some(conditions[0].message)
    else FailureMessage(conditions[1..])
  }

  /** The status a Deployment calls for. */
  function StatusFor(k: Key, d: Deployment): Status {
    if d.ready >= Desired(d) && Desired(d) > 0 then
      Status(Running, DeploymentName(k), ServerRunning(d.ready, Desired(d)))
    else if d.unavailable > 0 then
      var failure := FailureMessage(d.conditions);
      if failure.Some? then Status(Failed, DeploymentName(k), ReplicaFailure(failure.value))
      else Status(Pending, DeploymentName(k), PodsStartingUp)
    else Status(Pending, DeploymentName(k), WaitingForPods)
  }

  lemma {:induction false} FailureMessageFound(conditions: seq<Condition>)
    ensures FailureMessage(conditions).Some? <==> exists i :: 0 <= i < |conditions| && IsReplicaFailure(conditions[i])
    ensures FailureMessage(conditions).Some? ==>
              exists i :: 0 <= i < |conditions| && IsReplicaFailure(conditions[i])
                          && conditions[i].message == FailureMessage(conditions).value
                          && forall j :: 0 <= j < i ==> !IsReplicaFailure(conditions[j])
  {
    if conditions != [] && !IsReplicaFailure(conditions[0]) {
      var rest := conditions[1..];
      FailureMessageFound(rest);
      if FailureMessage(rest).Some? {
        var i :| 0 <= i < |rest| && IsReplicaFailure(rest[i]) && rest[i].message == FailureMessage(rest).value
                 && forall j :: 0 <= j < i ==> !IsReplicaFailure(rest[j]);
        assert conditions[i + 1] == rest[i];
        forall j | 0 <= j < i + 1 ensures !IsReplicaFailure(conditions[j]) {
          assert j > 0 ==> conditions[j] == rest[j - 1];
        }
      } else {
        forall i | 0 <= i < |conditions| ensures !IsReplicaFailure(conditions[i]) {
          assert i > 0 ==> conditions[i] == rest[i - 1];
        }
      }
    }
  }

  /** The phase in terms of the Deployment alone: Running when all desired replicas, and at least one, are
      ready; Failed when not, some are unavailable and a replica failure is reported; Pending otherwise. */
  lemma PhaseMeaning(k: Key, d: Deployment)
    ensures var (phase, up, broken) := (StatusFor(k, d).phase, d.ready >= Desired(d) > 0,
              d.unavailable > 0 && exists i :: 0 <= i < |d.conditions| && IsReplicaFailure(d.conditions[i]));
            && (phase == Running <==> up)
            && (phase == Failed <==> !up && broken)
            && (phase == Pending <==> !up && !broken)
            && (d.replicas.None? ==> (up <==> d.ready >= 1))
            && (d.replicas.Some? ==> (up <==> d.ready >= d.replicas.value > 0))
  {
    FailureMessageFound(d.conditions);
  }

  /** What else a computed status says: it names the Deployment; Running gives its counts, Failed the message of its
      first replica failure, Pending whether pods are starting or not there yet. */
  lemma StatusMeaning(k: Key, d: Deployment)
    ensures var s := StatusFor(k, d);
            && s.podName == k.name + "-inference"
            && (s.phase == Running ==> s.message == ServerRunning(d.ready, Desired(d)))
            && (s.phase == Failed ==>
                  exists i :: 0 <= i < |d.conditions| && IsReplicaFailure(d.conditions[i])
                              && s.message == ReplicaFailure(d.conditions[i].message)
                              && forall j :: 0 <= j < i ==> !IsReplicaFailure(d.conditions[j]))
            && (s.phase == Pending ==> s.message == if d.unavailable > 0 then PodsStartingUp else WaitingForPods)
  {
    FailureMessageFound(d.conditions);
  }

  /** Running and Pending are written when the phase changes, a replica failure on every pass. */
  function Evaluate(k: Key, w: Workload, d: Deployment): Pc {
    var status := StatusFor(k, d);
    if status.phase != Failed && w.status.phase == status.phase then Idle(Finished) else WriteStatus(w, status)
  }

  function Ended(error: Option<ApiError>): Pc {
    Idle(if error.None? then Finished else Errored(error.value))
  }

  /** One API call (or local call that can fail) of a pass for `k`. */
  function Call(k: Key, v: View, pc: Pc, fault: Fault): (View, Pc) {
    match pc
    case Idle(_) => (v, pc)
    case GetWorkload =>
      if fault != NoFault then (v, Idle(Errored(Unavailable)))
      else if v.workload.None? then (v, Idle(Finished))
      else (v, AfterFetch(v.workload.value))

    case CleanupGetDeployment(w) =>
      if fault != NoFault then (v, Idle(Errored(Unavailable)))
      else (v, if v.deployment.None? then CleanupGetService(w) else CleanupDeleteDeployment(w))
    case CleanupDeleteDeployment(w) =>
      var r := Deliver(v, fault, DeleteDeployment(v));
      (r.view, if r.error.None? || r.error == Some(NotFound) then CleanupGetService(w) else Idle(Errored(r.error.value)))
    case CleanupGetService(w) =>
      if fault != NoFault then (v, Idle(Errored(Unavailable)))
      else (v, if v.service.None? then RemoveFinalizer(w) else CleanupDeleteService(w))
    case CleanupDeleteService(w) =>
      var r := Deliver(v, fault, DeleteService(v));
      (r.view, if r.error.None? || r.error == Some(NotFound) then RemoveFinalizer(w) else Idle(Errored(r.error.value)))
    case RemoveFinalizer(w) =>
      var r := Deliver(v, fault, UpdateWorkload(v, w.(finalizers := w.finalizers - {FINALIZER})));
      (r.view, Ended(r.error))

    case AddFinalizer(w) =>
      var r := Deliver(v, fault, UpdateWorkload(v, w.(finalizers := w.finalizers + {FINALIZER})));
      (r.view, if r.error.None? then Idle(RequeueNow) else Idle(Errored(r.error.value)))

    case GetDeployment(w) =>
      if fault != NoFault then (v, Idle(Errored(Unavailable)))
      else (v, if v.deployment.None? then SetDeploymentOwner(w) else GetService(w, v.deployment.value))
    case SetDeploymentOwner(w) =>
      (v, if fault != NoFault then Idle(Errored(Unavailable)) else SendDeployment(w))
    case SendDeployment(w) =>
      var r := Deliver(v, fault, CreateDeployment(v, BuildDeployment(k, w)));
      (r.view,
       if r.error.Some? then WriteStatus(w, Status(Failed, "", CreationFailed(r.error.value)))
       else WriteStatus(w, Status(Pending, DeploymentName(k), DeploymentCreated)))

    case GetService(w, d) =>
      if fault != NoFault then (v, Idle(Errored(Unavailable)))
      else (v, if v.service.None? then SetServiceOwner(w, d) else Evaluate(k, w, d))
    case SetServiceOwner(w, d) =>
      (v, if fault != NoFault then Idle(Errored(Unavailable)) else SendService(w, d))
    case SendService(w, d) =>
      var r := Deliver(v, fault, CreateService(v, BuildService(k, w)));
      (r.view, Evaluate(k, w, d))

    case WriteStatus(w, status) =>
      var r := Deliver(v, fault, UpdateStatus(v, w.(status := status)));
      (r.view, if r.error.None? then Idle(Finished) else Idle(RetryLater(r.error.value)))
  }

  // ----- every pass ends

  /** An upper bound on the calls a pass still makes. */
  function Rank(pc: Pc): (n: nat)
    ensures n <= 6
  {
    match pc
    case Idle(_) => 0
    case GetWorkload => 6
    case CleanupGetDeployment(_) => 5
    case CleanupDeleteDeployment(_) => 4
    case CleanupGetService(_) => 3
    case CleanupDeleteService(_) => 2
    case RemoveFinalizer(_) => 1
    case AddFinalizer(_) => 1
    case GetDeployment(_) => 5
    case SetDeploymentOwner(_) => 3
    case SendDeployment(_) => 2
    case GetService(_, _) => 4
    case SetServiceOwner(_, _) => 3
    case SendService(_, _) => 2
    case WriteStatus(_, _) => 1
  }

  /** Whatever fails and whatever the cluster looks like, a pass ends within six calls. */
  lemma CallDescends(k: Key, v: View, pc: Pc, fault: Fault)
    ensures !pc.Idle? ==> Rank(Call(k, v, pc, fault).1) < Rank(pc)
  {
  }

  // ----- runs of the whole cluster

  /** A pass starts only when none is running for the same key; a crash ends a pass anywhere. */
  datatype Action = Begin | Proceed(fault: Fault) | Crash | Environment(change: Change)

  datatype Event = Event(key: Key, action: Action)

  datatype State = State(store: Store, pcs: map<Key, Pc>)

  function PcOf(g: State, k: Key): Pc {
    if k in g.pcs then g.pcs[k] else Idle(NoPass)
  }

  function LocalStep(k: Key, v: View, pc: Pc, a: Action): (View, Pc) {
    match a
    case Begin => (v, if pc.Idle? then GetWorkload else pc)
    case Proceed(fault) => Call(k, v, pc, fault)
    case Crash => (v, Idle(NoPass))
    case Environment(change) => (Apply(v, change), pc)
  }

  function Step(g: State, e: Event): State {
    var (v, pc) := LocalStep(e.key, ViewOf(g.store, e.key), PcOf(g, e.key), e.action);
    Lift(g, e.key, v, pc)
  }

  function Lift(g: State, k: Key, v: View, pc: Pc): State {
    State(Put(g.store, k, v), g.pcs[k := pc])
  }

  function Run(g: State, events: seq<Event>): State {
    if events == [] then g else Step(Run(g, events[..|events| - 1]), events[|events| - 1])
  }

  lemma {:induction false} RunAppend(g: State, a: seq<Event>, b: seq<Event>)
    ensures Run(g, a + b) == Run(Run(g, a), b)
  {
    if b == [] {
      assert a + b == a;
    } else {
      var n := |b| - 1;
      assert (a + b)[..|a + b| - 1] == a + b[..n];
      RunAppend(g, a, b[..n]);
    }
  }

  lemma LiftFrame(g: State, k: Key, v: View, pc: Pc, j: Key)
    ensures ViewOf(Lift(g, k, v, pc).store, k) == v && PcOf(Lift(g, k, v, pc), k) == pc
    ensures j != k ==>
              && ViewOf(Lift(g, k, v, pc).store, j) == ViewOf(g.store, j).(revision := v.revision)
              && PcOf(Lift(g, k, v, pc), j) == PcOf(g, j)
  {
    PutView(g.store, k, v, j);
  }

  lemma RevisionGrows(k: Key, v: View, pc: Pc, a: Action)
    ensures LocalStep(k, v, pc, a).0.revision >= v.revision
  {
  }

  /** Isolation: a step for one workload leaves the objects and the pass of every other workload alone. */
  lemma Isolation(g: State, e: Event, j: Key)
    requires j != e.key
    ensures ViewOf(Step(g, e).store, j) == ViewOf(g.store, j).(revision := Step(g, e).store.revision)
    ensures PcOf(Step(g, e), j) == PcOf(g, j)
    ensures Step(g, e).store.revision >= g.store.revision
  {
    var (v, pc) := LocalStep(e.key, ViewOf(g.store, e.key), PcOf(g, e.key), e.action);
    LiftFrame(g, e.key, v, pc, j);
    RevisionGrows(e.key, ViewOf(g.store, e.key), PcOf(g, e.key), e.action);
  }

  /** What a step does to its own workload is what the local step says. */
  lemma Projection(g: State, e: Event)
    ensures (ViewOf(Step(g, e).store, e.key), PcOf(Step(g, e), e.key))
         == LocalStep(e.key, ViewOf(g.store, e.key), PcOf(g, e.key), e.action)
  {
    var (v, pc) := LocalStep(e.key, ViewOf(g.store, e.key), PcOf(g, e.key), e.action);
    LiftFrame(g, e.key, v, pc, e.key);
  }
}
