/** What a reconcile pass returns, in terms of the API errors it met. */
module PassResults {
  import opened Options
  import opened Cluster
  import opened Controller
  import opened ControllerProgress
  import opened ControllerSafety
  import opened Reconciler

  // ----- the calls of a pass and their errors

  /** The error, if any, of the API call a pass makes at `pc`: what the API server answers, or what the fault makes of
      the answer. */
  function ErrorAt(k: Key, v: View, pc: Pc, fault: Fault): Option<ApiError>
    requires !pc.Idle?
  {
    match pc
    case GetWorkload => Lookup(v.workload.Some?, fault)
    case CleanupGetDeployment(_) => Lookup(v.deployment.Some?, fault)
    case CleanupGetService(_) => Lookup(v.service.Some?, fault)
    case GetDeployment(_) => Lookup(v.deployment.Some?, fault)
    case GetService(_, _) => Lookup(v.service.Some?, fault)
    case SetDeploymentOwner(_) => Lookup(true, fault)
    case SetServiceOwner(_, _) => Lookup(true, fault)
    case CleanupDeleteDeployment(_) => Deliver(v, fault, DeleteDeployment(v)).error
    case CleanupDeleteService(_) => Deliver(v, fault, DeleteService(v)).error
    case AddFinalizer(w) => Deliver(v, fault, UpdateWorkload(v, w.(finalizers := w.finalizers + {FINALIZER}))).error
    case RemoveFinalizer(w) => Deliver(v, fault, UpdateWorkload(v, w.(finalizers := w.finalizers - {FINALIZER}))).error
    case SendDeployment(w) => Deliver(v, fault, CreateDeployment(v, BuildDeployment(k, w))).error
    case SendService(w, _) => Deliver(v, fault, CreateService(v, BuildService(k, w))).error
    case WriteStatus(w, status) => Deliver(v, fault, UpdateStatus(v, w.(status := status))).error
  }

  function Lookup(found: bool, fault: Fault): Option<ApiError> {
    if fault != NoFault then Some(Unavailable) else if found then None else Some(NotFound)
  }

  /** One call of a pass, and how it went. */
  datatype Served = Served(pc: Pc, error: Option<ApiError>)

  /** The calls a pass makes on the way to its end. */
  function Calls(k: Key, s: Store, pc: Pc, ticks: nat -> Tick, at: nat): seq<Served>
    decreases Rank(pc)
  {
    if pc.Idle? then []
    else
      var v, fault := ViewOf(Interfere(s, ticks(at).changes), k), ticks(at).fault;
      var (v', pc') := Call(k, v, pc, fault);
      CallDescends(k, v, pc, fault);
      [Served(pc, ErrorAt(k, v, pc, fault))]
      + Calls(k, Put(Interfere(s, ticks(at).changes), k, v'), pc', ticks, at + 1)
  }

  predicate IsLookup(pc: Pc) {
    pc.GetWorkload? || pc.CleanupGetDeployment? || pc.CleanupGetService? || pc.GetDeployment? || pc.GetService?
  }

  predicate IsDeletion(pc: Pc) {
    pc.CleanupDeleteDeployment? || pc.CleanupDeleteService?
  }

  predicate IsCreation(pc: Pc) {
    pc.SendDeployment? || pc.SendService?
  }

  /** Errors that do not end a pass: an object that is not there, for a lookup or a deletion, and any failed creation. */
  predicate Tolerated(c: Served) {
    c.error.Some? && (IsCreation(c.pc) || (c.error == Some(NotFound) && (IsLookup(c.pc) || IsDeletion(c.pc))))
  }

  predicate Passed(c: Served) {
    c.error.None? || Tolerated(c)
  }

  /** What a pass that ends with this call returns. */
  function Verdict(c: Served): PassResult {
    if c.error.Some? && c.pc.WriteStatus? then RetryLater(c.error.value)
    else if !Passed(c) then Errored(c.error.value)
    else if c.pc.AddFinalizer? then RequeueNow
    else Finished
  }

  lemma OneVerdict(k: Key, v: View, pc: Pc, fault: Fault)
    requires !pc.Idle?
    ensures var (pc', c) := (Call(k, v, pc, fault).1, Served(pc, ErrorAt(k, v, pc, fault)));
            if pc'.Idle? then pc'.last == Verdict(c) else Passed(c) && !pc.AddFinalizer? && !pc.RemoveFinalizer?
  {
  }

  /** Every call of a pass but the last one succeeds or fails in a way that is tolerated, and the result of the pass is
      what its last call calls for. */
  lemma {:induction false} LastCallDecides(k: Key, s: Store, pc: Pc, ticks: nat -> Tick, at: nat)
    requires !pc.Idle?
    ensures var (calls, end) := (Calls(k, s, pc, ticks, at), Complete(k, s, pc, ticks, at));
            && |calls| > 0 && end.2 == at + |calls| && calls[0].pc == pc
            && (forall i :: 0 <= i < |calls| - 1 ==> Passed(calls[i]) && !calls[i].pc.AddFinalizer?)
            && end.1 == Verdict(calls[|calls| - 1])
    decreases Rank(pc)
  {
    var s' := Interfere(s, ticks(at).changes);
    var v, fault := ViewOf(s', k), ticks(at).fault;
    var (v', pc') := Call(k, v, pc, fault);
    OneVerdict(k, v, pc, fault);
    CallDescends(k, v, pc, fault);
    if !pc'.Idle? {
      LastCallDecides(k, Put(s', k, v'), pc', ticks, at + 1);
    }
  }

  /** Finished exactly when no call failed other than in a tolerated way and the finalizer was not added; RequeueNow
      exactly when it was added; an error exactly when the last call failed with it, to be retried later when that
      was the status write. */
  predicate Justified(calls: seq<Served>, result: PassResult)
    requires calls != []
  {
    var last := calls[|calls| - 1];
    && (result == Finished <==> forall i :: 0 <= i < |calls| ==> Passed(calls[i]) && !calls[i].pc.AddFinalizer?)
    && (result == RequeueNow <==> last.error.None? && last.pc.AddFinalizer?)
    && (result.RetryLater? <==> last.error.Some? && last.pc.WriteStatus?)
    && (result.Errored? <==> !Passed(last) && !last.pc.WriteStatus?)
    && (result.RetryLater? || result.Errored? ==> last.error == Some(result.error))
  }

  lemma VerdictIsJustified(calls: seq<Served>)
    requires calls != []
    requires forall i :: 0 <= i < |calls| - 1 ==> Passed(calls[i]) && !calls[i].pc.AddFinalizer?
    ensures Justified(calls, Verdict(calls[|calls| - 1]))
  {
    var last := calls[|calls| - 1];
    assert Passed(last) && !last.pc.AddFinalizer? <==> Verdict(last) == Finished;
  }

  /** The result of a pass is justified by its calls, under any faults and interference. */
  lemma ResultIsJustified(k: Key, s: Store, ticks: nat -> Tick, at: nat)
    ensures Calls(k, s, GetWorkload, ticks, at) != []
    ensures Justified(Calls(k, s, GetWorkload, ticks, at), Complete(k, s, GetWorkload, ticks, at).1)
  {
    LastCallDecides(k, s, GetWorkload, ticks, at);
    VerdictIsJustified(Calls(k, s, GetWorkload, ticks, at));
  }

  // ----- undisturbed passes

  /** What the store looks like, in the middle of a pass that nothing has disturbed. */
  predicate Undisturbed(v: View, pc: Pc) {
    match pc
    case Idle(_) => true
    case GetWorkload => true
    case CleanupGetDeployment(w) => v.workload == Some(w) && w.deleting
    case CleanupDeleteDeployment(w) => v.workload == Some(w) && w.deleting && v.deployment.Some?
    case CleanupGetService(w) => v.workload == Some(w) && w.deleting
    case CleanupDeleteService(w) => v.workload == Some(w) && w.deleting && v.service.Some?
    case RemoveFinalizer(w) => v.workload == Some(w) && w.deleting
    case AddFinalizer(w) => v.workload == Some(w) && !w.deleting
    case SetDeploymentOwner(w) => v.workload == Some(w) && v.deployment.None?
    case SendDeployment(w) => v.workload == Some(w) && v.deployment.None?
    case SetServiceOwner(w, _) => v.workload == Some(w) && v.service.None?
    case SendService(w, _) => v.workload == Some(w) && v.service.None?
    case _ => v.workload == Some(pc.w)
  }

  lemma QuietCall(k: Key, v: View, pc: Pc)
    requires !pc.Idle? && Undisturbed(v, pc)
    ensures Undisturbed(Call(k, v, pc, NoFault).0, Call(k, v, pc, NoFault).1)
    ensures Passed(Served(pc, ErrorAt(k, v, pc, NoFault)))
    ensures pc.AddFinalizer? <==> Call(k, v, pc, NoFault).1 == Idle(RequeueNow)
    ensures Call(k, v, pc, NoFault).1.AddFinalizer? <==> pc.GetWorkload? && Live(v) && !HasFinalizer(v)
  {
  }

  lemma {:induction false} QuietRest(k: Key, s: Store, pc: Pc, ticks: nat -> Tick, at: nat)
    requires forall n: nat :: ticks(n) == Tick([], NoFault)
    requires !pc.Idle? && Undisturbed(ViewOf(s, k), pc)
    ensures Complete(k, s, pc, ticks, at).1 ==
            if pc.AddFinalizer? || (pc.GetWorkload? && Live(ViewOf(s, k)) && !HasFinalizer(ViewOf(s, k))) then RequeueNow
            else Finished
    decreases Rank(pc)
  {
    var v := ViewOf(s, k);
    var (v', pc') := Call(k, v, pc, NoFault);
    QuietCall(k, v, pc);
    OneVerdict(k, v, pc, NoFault);
    CallDescends(k, v, pc, NoFault);
    if !pc'.Idle? {
      PutView(s, k, v', k);
      QuietRest(k, Put(s, k, v'), pc', ticks, at + 1);
    }
  }

  /** Without faults and interference a pass asks to be run again at once exactly when the workload is there, unmarked
      and without the finalizer, and is finished otherwise. */
  lemma QuietResult(k: Key, s: Store, ticks: nat -> Tick, at: nat)
    requires forall n: nat :: ticks(n) == Tick([], NoFault)
    ensures var (v, result) := (ViewOf(s, k), Complete(k, s, GetWorkload, ticks, at).1);
            && (result == RequeueNow <==> Live(v) && !HasFinalizer(v))
            && (result == Finished <==> !(Live(v) && !HasFinalizer(v)))
  {
    QuietRest(k, s, GetWorkload, ticks, at);
  }

  // ----- what is reported about a created Deployment

  /** The status written after a Deployment was sent. */
  function Report(k: Key, error: Option<ApiError>): Status {
    if error.Some? then Status(Failed, "", CreationFailed(error.value))
    else Status(Pending, DeploymentName(k), DeploymentCreated)
  }

  /** After call `i` the pass only writes the status that reports it, and that is the stored one if the write gets
      through. */
  predicate Reported(k: Key, calls: seq<Served>, i: nat, end: Store)
    requires i < |calls| && calls[i].pc.SendDeployment?
  {
    && |calls| == i + 2 && calls[i + 1].pc == WriteStatus(calls[i].pc.w, Report(k, calls[i].error))
    && (calls[i + 1].error.None? ==>
          k in end.workloads && end.workloads[k].status == Report(k, calls[i].error))
  }

  lemma LastWrite(k: Key, s: Store, w: Workload, status: Status, ticks: nat -> Tick, at: nat)
    ensures var (calls, end) := (Calls(k, s, WriteStatus(w, status), ticks, at),
                                 Complete(k, s, WriteStatus(w, status), ticks, at).0);
            && |calls| == 1 && calls[0].pc == WriteStatus(w, status)
            && (calls[0].error.None? ==> k in end.workloads && end.workloads[k].status == status)
  {
    var s' := Interfere(s, ticks(at).changes);
    var (v, pc) := Call(k, ViewOf(s', k), WriteStatus(w, status), ticks(at).fault);
    PutView(s', k, v, k);
  }

  lemma SendingIsReported(k: Key, s: Store, w: Workload, ticks: nat -> Tick, at: nat)
    ensures var calls := Calls(k, s, SendDeployment(w), ticks, at);
            && |calls| > 0 && calls[0].pc == SendDeployment(w)
            && Reported(k, calls, 0, Complete(k, s, SendDeployment(w), ticks, at).0)
  {
    var s' := Interfere(s, ticks(at).changes);
    var v, fault := ViewOf(s', k), ticks(at).fault;
    var v' := Call(k, v, SendDeployment(w), fault).0;
    LastWrite(k, Put(s', k, v'), w, Report(k, ErrorAt(k, v, SendDeployment(w), fault)), ticks, at + 1);
  }

  /** A pass that sends a Deployment makes one more call, the status write: Pending with the name of the Deployment when
      it was created, Failed with an empty pod name and the error when it was not; and that is the stored status
      when the write gets through. */
  lemma {:induction false} CreationIsReported(k: Key, s: Store, pc: Pc, ticks: nat -> Tick, at: nat, i: nat)
    requires i < |Calls(k, s, pc, ticks, at)| && Calls(k, s, pc, ticks, at)[i].pc.SendDeployment?
    ensures Reported(k, Calls(k, s, pc, ticks, at), i, Complete(k, s, pc, ticks, at).0)
    decreases i
  {
    if i == 0 {
      SendingIsReported(k, s, pc.w, ticks, at);
    } else {
      var s' := Interfere(s, ticks(at).changes);
      var (v', pc') := Call(k, ViewOf(s', k), pc, ticks(at).fault);
      CreationIsReported(k, Put(s', k, v'), pc', ticks, at + 1, i - 1);
    }
  }
}
