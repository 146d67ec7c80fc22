/** What passes achieve: deletion drains, undeleted workloads converge. */
module ControllerProgress {
  import opened Options
  import opened Cluster
  import opened Controller
  import opened ControllerSafety

  // ----- undisturbed passes

  /** The rest of a pass that meets no fault and no interference. */
  function FinishPass(k: Key, v: View, pc: Pc): View
    decreases Rank(pc)
  {
    if pc.Idle? then v
    else
      var (v', pc') := Call(k, v, pc, NoFault);
      CallDescends(k, v, pc, NoFault);
      FinishPass(k, v', pc')
  }

  function CleanPass(k: Key, v: View): View {
    FinishPass(k, v, GetWorkload)
  }

  lemma OneCall(k: Key, v: View, pc: Pc, v': View, pc': Pc)
    requires !pc.Idle? && Call(k, v, pc, NoFault) == (v', pc')
    ensures FinishPass(k, v, pc) == FinishPass(k, v', pc')
    ensures pc'.Idle? ==> FinishPass(k, v, pc) == v'
  {
    CallDescends(k, v, pc, NoFault);
  }

  predicate Marked(v: View) {
    v.workload.Some? && v.workload.value.deleting
  }

  predicate Live(v: View) {
    v.workload.Some? && !v.workload.value.deleting
  }

  // ----- deletion

  /** The incarnation `u` is marked for deletion, or gone for good. */
  predicate Doomed(v: View, u: nat) {
    u <= v.revision && (v.workload.Some? && v.workload.value.uid == u ==> v.workload.value.deleting)
  }

  /** Whether a pass working for incarnation `u` may still create a child. */
  function Credit(pc: Pc, u: nat): nat {
    match pc
    case GetDeployment(w) => if w.uid == u then 1 else 0
    case SetDeploymentOwner(w) => if w.uid == u then 1 else 0
    case SendDeployment(w) => if w.uid == u then 1 else 0
    case GetService(w, _) => if w.uid == u then 1 else 0
    case SetServiceOwner(w, _) => if w.uid == u then 1 else 0
    case SendService(w, _) => if w.uid == u then 1 else 0
    case _ => 0
  }

  /** The number of children of incarnation `u`. */
  function Children(v: View, u: nat): nat {
    (if v.deployment.Some? && v.deployment.value.owner == u then 1 else 0)
    + (if v.service.Some? && v.service.value.owner == u then 1 else 0)
  }

  /** The number of children of incarnation `u` that appear between two views. */
  function Appeared(v: View, v': View, u: nat): nat {
    (if v.deployment.None? && v'.deployment.Some? && v'.deployment.value.owner == u then 1 else 0)
    + (if v.service.None? && v'.service.Some? && v'.service.value.owner == u then 1 else 0)
  }

  predicate Drains(v: View, pc: Pc, u: nat, v': View, pc': Pc) {
    && Doomed(v', u)
    && Appeared(v, v', u) + Credit(pc', u) <= Credit(pc, u)
    && Children(v', u) + Credit(pc', u) <= Children(v, u) + Credit(pc, u)
  }

  lemma DoomedCall(k: Key, v: View, pc: Pc, fault: Fault, u: nat)
    requires NoOrphans(v) && PcInv(k, v, pc) && Doomed(v, u)
    ensures Drains(v, pc, u, Call(k, v, pc, fault).0, Call(k, v, pc, fault).1)
  {
    if InCleanup(pc) {
      DoomedCleanup(k, v, pc, fault, u);
    } else if pc.SendDeployment? || pc.SendService? {
      DoomedCreation(k, v, pc, fault, u);
    }
  }

  lemma DoomedCleanup(k: Key, v: View, pc: Pc, fault: Fault, u: nat)
    requires NoOrphans(v) && PcInv(k, v, pc) && Doomed(v, u) && InCleanup(pc)
    ensures Drains(v, pc, u, Call(k, v, pc, fault).0, Call(k, v, pc, fault).1)
  {
  }

  lemma DoomedCreation(k: Key, v: View, pc: Pc, fault: Fault, u: nat)
    requires Doomed(v, u) && (pc.SendDeployment? || pc.SendService?)
    ensures Drains(v, pc, u, Call(k, v, pc, fault).0, Call(k, v, pc, fault).1)
  {
  }

  lemma DoomedChange(k: Key, v: View, pc: Pc, c: Change, u: nat)
    requires Doomed(v, u)
    ensures Drains(v, pc, u, Apply(v, c), pc)
  {
  }

  /** Children of `u` created for workload name `k` in the course of a run. */
  function Created(g: State, events: seq<Event>, k: Key, u: nat): nat {
    if events == [] then 0
    else
      var before := events[..|events| - 1];
      Created(g, before, k, u) + Appeared(ViewOf(Run(g, before).store, k), ViewOf(Run(g, events).store, k), u)
  }

  /** Once incarnation `u` is marked, every continuation, with any faults, creates at most one more child for it,
      and only if a pass that fetched it unmarked was in flight; its children never exceed those present then
      plus that one. */
  lemma {:induction false} DeletionDrains(g: State, events: seq<Event>, k: Key, u: nat)
    requires GlobalInv(g) && Doomed(ViewOf(g.store, k), u)
    ensures var h := Run(g, events);
            && Doomed(ViewOf(h.store, k), u)
            && Created(g, events, k, u) + Credit(PcOf(h, k), u) <= Credit(PcOf(g, k), u) <= 1
            && Children(ViewOf(h.store, k), u) + Credit(PcOf(h, k), u)
               <= Children(ViewOf(g.store, k), u) + Credit(PcOf(g, k), u)
  {
    if events != [] {
      var before, e := events[..|events| - 1], events[|events| - 1];
      DeletionDrains(g, before, k, u);
      RunKeepsInv(g, before);
      DoomedStep(Run(g, before), e, k, u);
    }
  }

  lemma DoomedStep(g: State, e: Event, k: Key, u: nat)
    requires GlobalInv(g) && Doomed(ViewOf(g.store, k), u)
    ensures var (v, v', pc, pc') := (ViewOf(g.store, k), ViewOf(Step(g, e).store, k), PcOf(g, k), PcOf(Step(g, e), k));
            Drains(v, pc, u, v', pc')
  {
    var v, pc := ViewOf(g.store, k), PcOf(g, k);
    assert Inv(k, v, pc);
    if k == e.key {
      Projection(g, e);
      match e.action {
        case Proceed(fault) => DoomedCall(k, v, pc, fault, u);
        case Environment(change) => DoomedChange(k, v, pc, change, u);
        case _ =>
      }
    } else {
      Isolation(g, e, k);
    }
  }

  /** One undisturbed pass over a marked workload removes both children and lets go of the object, which
      vanishes unless somebody else's finalizer holds it. */
  lemma CleanPassDrains(k: Key, v: View)
    requires Marked(v) && HasFinalizer(v)
    ensures var v' := CleanPass(k, v);
            && v'.deployment.None? && v'.service.None? && !HasFinalizer(v')
            && (v'.workload.None? <==> v.workload.value.finalizers == {FINALIZER})
  {
    var w := v.workload.value;
    var v1 := DeleteDeployment(v).view;
    var v2 := DeleteService(v1).view;
    var v3 := UpdateWorkload(v2, w.(finalizers := w.finalizers - {FINALIZER})).view;
    OneCall(k, v, GetWorkload, v, CleanupGetDeployment(w));
    if v.deployment.None? {
      OneCall(k, v, CleanupGetDeployment(w), v1, CleanupGetService(w));
    } else {
      OneCall(k, v, CleanupGetDeployment(w), v, CleanupDeleteDeployment(w));
      OneCall(k, v, CleanupDeleteDeployment(w), v1, CleanupGetService(w));
    }
    if v1.service.None? {
      OneCall(k, v1, CleanupGetService(w), v2, RemoveFinalizer(w));
    } else {
      OneCall(k, v1, CleanupGetService(w), v1, CleanupDeleteService(w));
      OneCall(k, v1, CleanupDeleteService(w), v2, RemoveFinalizer(w));
    }
    OneCall(k, v2, RemoveFinalizer(w), v3, Idle(Finished));
    assert w.finalizers - {FINALIZER} == {} <==> w.finalizers == {FINALIZER};
  }

  // ----- convergence

  lemma PassAddsFinalizer(k: Key, v: View)
    requires Live(v) && !HasFinalizer(v)
    ensures var w := v.workload.value;
            CleanPass(k, v) == v.(
              workload := Some(w.(finalizers := w.finalizers + {FINALIZER}, version := v.revision + 1)),
              revision := v.revision + 1)
  {
    var w := v.workload.value;
    OneCall(k, v, GetWorkload, v, AddFinalizer(w));
    OneCall(k, v, AddFinalizer(w), UpdateWorkload(v, w.(finalizers := w.finalizers + {FINALIZER})).view, Idle(RequeueNow));
  }

  lemma PassCreatesDeployment(k: Key, v: View)
    requires Live(v) && HasFinalizer(v) && v.deployment.None?
    ensures var (v', w) := (CleanPass(k, v), v.workload.value);
            && v'.deployment == Some(BuildDeployment(k, w))
            && v'.service == v.service
            && Live(v') && v'.workload.value.finalizers == w.finalizers && v'.workload.value.spec == w.spec
            && v'.workload.value.status == Status(Pending, DeploymentName(k), DeploymentCreated)
  {
    var w := v.workload.value;
    var status := Status(Pending, DeploymentName(k), DeploymentCreated);
    var v1 := CreateDeployment(v, BuildDeployment(k, w)).view;
    OneCall(k, v, GetWorkload, v, GetDeployment(w));
    OneCall(k, v, GetDeployment(w), v, SetDeploymentOwner(w));
    OneCall(k, v, SetDeploymentOwner(w), v, SendDeployment(w));
    OneCall(k, v, SendDeployment(w), v1, WriteStatus(w, status));
    OneCall(k, v1, WriteStatus(w, status), UpdateStatus(v1, w.(status := status)).view, Idle(Finished));
  }

  lemma PassCompletes(k: Key, v: View)
    requires Live(v) && HasFinalizer(v) && v.deployment.Some?
    ensures var (v', w, d) := (CleanPass(k, v), v.workload.value, v.deployment.value);
            && v'.deployment == v.deployment
            && v'.service == (if v.service.Some? then v.service else Some(BuildService(k, w)))
            && Live(v') && v'.workload.value.finalizers == w.finalizers && v'.workload.value.spec == w.spec
            && v'.workload.value.status == (if Evaluate(k, w, d).Idle? then w.status else StatusFor(k, d))
            && (v.service.Some? && (Evaluate(k, w, d).Idle? || w.status == StatusFor(k, d)) ==> v' == v)
  {
    var w, d := v.workload.value, v.deployment.value;
    var v1 := if v.service.Some? then v else CreateService(v, BuildService(k, w)).view;
    OneCall(k, v, GetWorkload, v, GetDeployment(w));
    OneCall(k, v, GetDeployment(w), v, GetService(w, d));
    if v.service.None? {
      OneCall(k, v, GetService(w, d), v, SetServiceOwner(w, d));
      OneCall(k, v, SetServiceOwner(w, d), v, SendService(w, d));
      OneCall(k, v, SendService(w, d), v1, Evaluate(k, w, d));
    } else {
      OneCall(k, v, GetService(w, d), v1, Evaluate(k, w, d));
    }
    if Evaluate(k, w, d).WriteStatus? {
      var status := StatusFor(k, d);
      OneCall(k, v1, WriteStatus(w, status), UpdateStatus(v1, w.(status := status)).view, Idle(Finished));
    }
  }

  /** The status needs no further write for this Deployment. */
  predicate Settled(k: Key, w: Workload, d: Deployment) {
    Evaluate(k, w, d).Idle? || w.status == StatusFor(k, d)
  }

  function Bit(b: bool): nat { if b then 1 else 0 }

  /** What is missing, most significant first: the finalizer, the Deployment, the Service, a settled status. */
  function Missing(k: Key, v: View): nat
    requires Live(v)
  {
    8 * Bit(!HasFinalizer(v)) + 4 * Bit(v.deployment.None?) + 2 * Bit(v.service.None?)
    + Bit(v.deployment.None? || !Settled(k, v.workload.value, v.deployment.value))
  }

  /** Nothing is missing exactly when all pieces exist and the status is the one the Deployment calls for, up to
      the message of an unchanged phase. */
  lemma NothingMissing(k: Key, v: View)
    requires Live(v)
    ensures Missing(k, v) == 0 <==>
              && HasFinalizer(v) && v.deployment.Some? && v.service.Some?
              && v.workload.value.status.phase == StatusFor(k, v.deployment.value).phase
              && (v.workload.value.status.phase == Failed ==> v.workload.value.status == StatusFor(k, v.deployment.value))
  {
  }

  /** Every undisturbed pass over an unmarked workload supplies something missing; when nothing is, it changes
      nothing at all. */
  lemma PassProgress(k: Key, v: View)
    requires Live(v)
    ensures Live(CleanPass(k, v))
    ensures Missing(k, v) > 0 ==> Missing(k, CleanPass(k, v)) < Missing(k, v)
    ensures CleanPass(k, v) == v <==> Missing(k, v) == 0
  {
    if !HasFinalizer(v) {
      PassAddsFinalizer(k, v);
    } else if v.deployment.None? {
      PassCreatesDeployment(k, v);
    } else {
      PassCompletes(k, v);
    }
  }

  /** Three undisturbed passes always suffice. */
  lemma ThreePassesSuffice(k: Key, v: View)
    requires Live(v)
    ensures var v3 := CleanPass(k, CleanPass(k, CleanPass(k, v)));
            Live(v3) && Missing(k, v3) == 0 && CleanPass(k, v3) == v3
  {
    var v1 := CleanPass(k, v);
    PassShape(k, v);
    PassProgress(k, v);
    var v2 := CleanPass(k, v1);
    PassShape(k, v1);
    PassProgress(k, v1);
    PassShape(k, v2);
    PassProgress(k, v2);
    PassProgress(k, CleanPass(k, v2));
  }

  lemma PassShape(k: Key, v: View)
    requires Live(v)
    ensures var v' := CleanPass(k, v);
            && Live(v') && HasFinalizer(v')
            && (if HasFinalizer(v) then v'.deployment.Some? else v'.deployment == v.deployment)
            && (HasFinalizer(v) && v.deployment.Some? ==> Missing(k, v') == 0)
            && (v'.service.Some? <==> v.service.Some? || (HasFinalizer(v) && v.deployment.Some?))
            && (v.deployment.Some? ==> v'.deployment == v.deployment)
  {
    if !HasFinalizer(v) {
      PassAddsFinalizer(k, v);
    } else if v.deployment.None? {
      PassCreatesDeployment(k, v);
    } else {
      PassCompletes(k, v);
    }
  }

  /** The Service is there after two passes exactly when the finalizer was there before the first: a workload the
      operator has not seen before needs a third pass. */
  lemma ServiceAfterTwoPasses(k: Key, v: View)
    requires Live(v) && NoOrphans(v)
    ensures CleanPass(k, CleanPass(k, v)).service.Some? <==> HasFinalizer(v)
  {
    PassShape(k, v);
    PassShape(k, CleanPass(k, v));
  }

  /** Changes that neither delete anything nor mark the workload. */
  predicate Benign(c: Change) {
    c.EditWorkload? || c.ReportStatus? || c.Scale?
  }

  function ApplyAll(v: View, changes: seq<Change>): View
    decreases changes
  {
    if changes == [] then v else ApplyAll(Apply(v, changes[0]), changes[1..])
  }

  lemma {:induction false} BenignKeepsPieces(v: View, changes: seq<Change>)
    requires Live(v) && forall i :: 0 <= i < |changes| ==> Benign(changes[i])
    ensures var v' := ApplyAll(v, changes);
            && Live(v') && (HasFinalizer(v) ==> HasFinalizer(v'))
            && (v.deployment.Some? <==> v'.deployment.Some?) && (v.service.Some? <==> v'.service.Some?)
    decreases changes
  {
    if changes != [] {
      BenignKeepsPieces(Apply(v, changes[0]), changes[1..]);
    }
  }

  /** Spec edits, scaling and Deployment status reports between the passes do not hinder convergence: three
      passes leave every piece in place and the phase the last-seen Deployment calls for. */
  lemma ConvergesUnderDrift(k: Key, v: View, a: seq<Change>, b: seq<Change>)
    requires Live(v)
    requires forall i :: 0 <= i < |a| ==> Benign(a[i])
    requires forall i :: 0 <= i < |b| ==> Benign(b[i])
    ensures var v2 := ApplyAll(CleanPass(k, ApplyAll(CleanPass(k, v), a)), b);
            var v3 := CleanPass(k, v2);
            && Live(v3) && HasFinalizer(v3) && v3.service.Some?
            && v3.deployment.Some? && v3.deployment == v2.deployment
            && v3.workload.value.status.phase == StatusFor(k, v2.deployment.value).phase
            && Missing(k, v3) == 0 && CleanPass(k, v3) == v3
  {
    PassShape(k, v);
    BenignKeepsPieces(CleanPass(k, v), a);
    var v1 := ApplyAll(CleanPass(k, v), a);
    PassShape(k, v1);
    BenignKeepsPieces(CleanPass(k, v1), b);
    var v2 := ApplyAll(CleanPass(k, v1), b);
    PassShape(k, v2);
    NothingMissing(k, CleanPass(k, v2));
    PassProgress(k, CleanPass(k, v2));
  }

  /** The life of a workload: created, it is Pending after two passes; once its pod is ready, a third makes it Running
      behind its Service; marked, one more pass leaves nothing of it. */
  lemma LifeCycle(k: Key, revision: nat, spec: Spec)
    requires Accepts(spec)
    ensures var created := Apply(View(revision, None, None, None), CreateWorkload(spec, {}));
            var deployed := CleanPass(k, CleanPass(k, created));
            var running := CleanPass(k, Apply(deployed, ReportStatus(1, 0, [])));
            var gone := CleanPass(k, Apply(running, MarkDeleted));
            && Live(deployed) && deployed.deployment.Some? && deployed.service.None?
            && deployed.workload.value.spec == spec
            && deployed.workload.value.status == Status(Pending, DeploymentName(k), DeploymentCreated)
            && Live(running) && running.service.Some? && running.workload.value.spec == spec
            && running.workload.value.status == Status(Running, DeploymentName(k), ServerRunning(1, 1))
            && gone.workload.None? && gone.deployment.None? && gone.service.None?
  {
    var created := Apply(View(revision, None, None, None), CreateWorkload(spec, {}));
    PassAddsFinalizer(k, created);
    PassCreatesDeployment(k, CleanPass(k, created));
    var deployed := CleanPass(k, CleanPass(k, created));
    var ready := Apply(deployed, ReportStatus(1, 0, []));
    PassCompletes(k, ready);
    CleanPassDrains(k, Apply(CleanPass(k, ready), MarkDeleted));
  }

  // ----- convergence among failing passes

  /** A pass whose calls meet these faults, one after the other, and which is cut short when they run out. */
  function CutPass(k: Key, v: View, pc: Pc, faults: seq<Fault>): View
    decreases |faults|
  {
    if pc.Idle? || faults == [] then v
    else
      var (v', pc') := Call(k, v, pc, faults[0]);
      CutPass(k, v', pc', faults[1..])
  }

  /** What an undisturbed store looks like in the middle of a pass over an unmarked workload. */
  predicate InStep(v: View, pc: Pc) {
    match pc
    case Idle(_) => true
    case GetWorkload => true
    case AddFinalizer(w) => v.workload == Some(w) && !HasFinalizer(v)
    case GetDeployment(w) => v.workload == Some(w) && HasFinalizer(v)
    case SetDeploymentOwner(w) => v.workload == Some(w) && HasFinalizer(v) && v.deployment.None?
    case SendDeployment(w) => v.workload == Some(w) && HasFinalizer(v) && v.deployment.None?
    case GetService(w, d) => v.workload == Some(w) && HasFinalizer(v) && v.deployment == Some(d)
    case SetServiceOwner(w, d) => v.workload == Some(w) && HasFinalizer(v) && v.deployment == Some(d)
    case SendService(w, d) => v.workload == Some(w) && HasFinalizer(v) && v.deployment == Some(d)
    case WriteStatus(w, _) => v.workload == Some(w) && HasFinalizer(v)
    case _ => false
  }

  function Pieces(v: View): nat {
    8 * Bit(!HasFinalizer(v)) + 4 * Bit(v.deployment.None?) + 2 * Bit(v.service.None?)
  }

  /** The most that can be missing when the pass stops, now or later. */
  function AtMostMissing(k: Key, v: View, pc: Pc): nat
    requires Live(v)
  {
    if pc.WriteStatus? && !(v.deployment.Some? && pc.status == StatusFor(k, v.deployment.value)) then Pieces(v) + 1
    else Missing(k, v)
  }

  lemma FaultyWorkloadCall(k: Key, v: View, pc: Pc, fault: Fault)
    requires Live(v) && InStep(v, pc) && (pc.AddFinalizer? || pc.WriteStatus?)
    ensures var (v', pc') := Call(k, v, pc, fault);
            && Live(v') && InStep(v', pc')
            && AtMostMissing(k, v', pc') <= AtMostMissing(k, v, pc)
            && Missing(k, v') <= AtMostMissing(k, v', pc')
  {
  }

  lemma FaultyCall(k: Key, v: View, pc: Pc, fault: Fault)
    requires Live(v) && InStep(v, pc)
    ensures var (v', pc') := Call(k, v, pc, fault);
            && Live(v') && InStep(v', pc')
            && AtMostMissing(k, v', pc') <= AtMostMissing(k, v, pc)
            && Missing(k, v') <= AtMostMissing(k, v', pc')
  {
    if pc.AddFinalizer? || pc.WriteStatus? {
      FaultyWorkloadCall(k, v, pc, fault);
    }
  }

  /** A pass that meets any faults and stops anywhere never leaves more missing than it found. */
  lemma {:induction false} CutPassLosesNothing(k: Key, v: View, pc: Pc, faults: seq<Fault>)
    requires Live(v) && InStep(v, pc)
    ensures Live(CutPass(k, v, pc, faults))
    ensures Missing(k, CutPass(k, v, pc, faults)) <= AtMostMissing(k, v, pc)
    decreases |faults|
  {
    if !pc.Idle? && faults != [] {
      var (v', pc') := Call(k, v, pc, faults[0]);
      FaultyCall(k, v, pc, faults[0]);
      CutPassLosesNothing(k, v', pc', faults[1..]);
    }
  }

  datatype Attempt = Clean | Cut(faults: seq<Fault>)

  function Try(k: Key, v: View, a: Attempt): View {
    match a
    case Clean => CleanPass(k, v)
    case Cut(faults) => CutPass(k, v, GetWorkload, faults)
  }

  function TryAll(k: Key, v: View, attempts: seq<Attempt>): View {
    if attempts == [] then v else Try(k, TryAll(k, v, attempts[..|attempts| - 1]), attempts[|attempts| - 1])
  }

  function CleanOnes(attempts: seq<Attempt>): nat {
    if attempts == [] then 0
    else CleanOnes(attempts[..|attempts| - 1]) + if attempts[|attempts| - 1].Clean? then 1 else 0
  }

  /** The clean passes still needed, read off the measure. */
  function Stage(missing: nat): nat {
    if missing >= 8 then 3 else if missing >= 4 then 2 else if missing >= 1 then 1 else 0
  }

  lemma TryProgress(k: Key, v: View, a: Attempt)
    requires Live(v)
    ensures var v' := Try(k, v, a);
            && Live(v') && Missing(k, v') <= Missing(k, v)
            && (a.Clean? && Missing(k, v) > 0 ==> Stage(Missing(k, v')) < Stage(Missing(k, v)))
  {
    if a.Clean? {
      PassProgress(k, v);
      PassShape(k, v);
    } else {
      CutPassLosesNothing(k, v, GetWorkload, a.faults);
    }
  }

  lemma {:induction false} StagesLeft(k: Key, v: View, attempts: seq<Attempt>)
    requires Live(v)
    ensures var v' := TryAll(k, v, attempts);
            Live(v') && (Missing(k, v') == 0 || Stage(Missing(k, v')) + CleanOnes(attempts) <= Stage(Missing(k, v)))
  {
    if attempts != [] {
      var before := attempts[..|attempts| - 1];
      StagesLeft(k, v, before);
      TryProgress(k, TryAll(k, v, before), attempts[|attempts| - 1]);
    }
  }

  /** Any three clean passes suffice, with any number of failing or aborted ones before, between and after. */
  lemma ThreeCleanAmongFaulty(k: Key, v: View, attempts: seq<Attempt>)
    requires Live(v) && CleanOnes(attempts) >= 3
    ensures var v' := TryAll(k, v, attempts);
            Live(v') && Missing(k, v') == 0 && CleanPass(k, v') == v'
  {
    StagesLeft(k, v, attempts);
    PassProgress(k, TryAll(k, v, attempts));
  }
}
