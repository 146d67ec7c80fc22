/** What every step of every run keeps. */
module ControllerSafety {
  import opened Options
  import opened Cluster
  import opened Controller

  // ----- the inductive invariant, per workload name

  predicate HasFinalizer(v: View) {
    v.workload.Some? && FINALIZER in v.workload.value.finalizers
  }

  /** A status that makes sense for `k`: Completed never occurs, Pending and Running name the Deployment, and
      Running was earned by a Deployment with all its replicas ready. */
  predicate Coherent(k: Key, s: Status) {
    && s.phase != Completed
    && (s.phase == Pending || s.phase == Running ==> s.podName == DeploymentName(k))
    && (s.podName == "" ==> s.phase == Unset || s.phase == Failed)
    && (s.phase == Running ==> s.message.ServerRunning? && s.message.ready >= s.message.desired > 0)
  }

  /** No orphans: children exist only while the workload that created them exists and is held by the finalizer. */
  predicate NoOrphans(v: View) {
    && (v.deployment.Some? ==> HasFinalizer(v) && v.deployment.value.owner == v.workload.value.uid)
    && (v.service.Some? ==> HasFinalizer(v) && v.service.value.owner == v.workload.value.uid)
  }

  ghost predicate BuiltFor(k: Key, d: Deployment) {
    && d.selector == Selector(k)
    && exists spec :: Accepts(spec) && d.labels == DeploymentLabels(k, spec) && d.template == Template(k, spec)
  }

  predicate SaneWorkload(k: Key, revision: nat, w: Workload) {
    w.version <= revision && w.uid <= revision && Accepts(w.spec) && Coherent(k, w.status)
  }

  /** A local copy with the stored resource version is the stored object. */
  predicate FreshCopy(k: Key, v: View, w: Workload) {
    && SaneWorkload(k, v.revision, w)
    && (v.workload.Some? && v.workload.value.version == w.version ==> v.workload.value == w)
  }

  /** The pass works for the stored incarnation, which the finalizer holds. */
  predicate Holds(k: Key, v: View, w: Workload) {
    FreshCopy(k, v, w) && HasFinalizer(v) && v.workload.value.uid == w.uid && FINALIZER in w.finalizers
  }

  predicate PcInv(k: Key, v: View, pc: Pc) {
    match pc
    case Idle(_) => true
    case GetWorkload => true
    case CleanupGetDeployment(w) => Holds(k, v, w) && w.deleting && v.workload.value.deleting
    case CleanupDeleteDeployment(w) => Holds(k, v, w) && w.deleting && v.workload.value.deleting
    case CleanupGetService(w) => Holds(k, v, w) && w.deleting && v.workload.value.deleting && v.deployment.None?
    case CleanupDeleteService(w) => Holds(k, v, w) && w.deleting && v.workload.value.deleting && v.deployment.None?
    case RemoveFinalizer(w) =>
      Holds(k, v, w) && w.deleting && v.workload.value.deleting && v.deployment.None? && v.service.None?
    case AddFinalizer(w) => FreshCopy(k, v, w) && !w.deleting
    case GetDeployment(w) => Holds(k, v, w) && !w.deleting
    case SetDeploymentOwner(w) => Holds(k, v, w) && !w.deleting && v.deployment.None?
    case SendDeployment(w) => Holds(k, v, w) && !w.deleting && v.deployment.None?
    case GetService(w, _) => Holds(k, v, w) && !w.deleting
    case SetServiceOwner(w, _) => Holds(k, v, w) && !w.deleting && v.service.None?
    case SendService(w, _) => Holds(k, v, w) && !w.deleting && v.service.None?
    case WriteStatus(w, status) => Holds(k, v, w) && !w.deleting && Coherent(k, status)
  }

  ghost predicate Inv(k: Key, v: View, pc: Pc) {
    && NoOrphans(v)
    && (v.workload.Some? ==> SaneWorkload(k, v.revision, v.workload.value))
    && (v.deployment.Some? ==> BuiltFor(k, v.deployment.value))
    && (v.service.Some? ==> v.service.value.selector == Selector(k))
    && PcInv(k, v, pc)
  }

  lemma StatusForIsCoherent(k: Key, w: Workload, d: Deployment)
    ensures Coherent(k, StatusFor(k, d))
    ensures Evaluate(k, w, d).WriteStatus? ==> Coherent(k, Evaluate(k, w, d).status)
  {
    assert |DeploymentName(k)| >= |"-inference"|;
  }

  predicate InCleanup(pc: Pc) {
    || pc.CleanupGetDeployment? || pc.CleanupDeleteDeployment? || pc.CleanupGetService?
    || pc.CleanupDeleteService? || pc.RemoveFinalizer?
  }

  lemma CleanupKeepsInv(k: Key, v: View, pc: Pc, fault: Fault)
    requires Inv(k, v, pc) && InCleanup(pc)
    ensures Inv(k, Call(k, v, pc, fault).0, Call(k, v, pc, fault).1)
  {
  }

  lemma CreationKeepsInv(k: Key, v: View, pc: Pc, fault: Fault)
    requires Inv(k, v, pc) && (pc.SendDeployment? || pc.SendService?)
    ensures Inv(k, Call(k, v, pc, fault).0, Call(k, v, pc, fault).1)
  {
    assert |DeploymentName(k)| >= |"-inference"|;
    if pc.SendDeployment? {
      assert BuiltFor(k, BuildDeployment(k, pc.w)) by {
        assert BuildDeployment(k, pc.w).template == Template(k, pc.w.spec);
      }
    } else {
      StatusForIsCoherent(k, pc.w, pc.d);
    }
  }

  lemma AddingKeepsInv(k: Key, v: View, pc: Pc, fault: Fault)
    requires Inv(k, v, pc) && pc.AddFinalizer?
    ensures Inv(k, Call(k, v, pc, fault).0, Call(k, v, pc, fault).1)
  {
  }

  lemma WritingKeepsInv(k: Key, v: View, pc: Pc, fault: Fault)
    requires Inv(k, v, pc) && pc.WriteStatus?
    ensures Inv(k, Call(k, v, pc, fault).0, Call(k, v, pc, fault).1)
  {
  }

  predicate InReading(pc: Pc) {
    || pc.Idle? || pc.GetWorkload? || pc.GetDeployment? || pc.SetDeploymentOwner? || pc.GetService? || pc.SetServiceOwner?
  }

  lemma ReadingKeepsInv(k: Key, v: View, pc: Pc, fault: Fault)
    requires Inv(k, v, pc) && InReading(pc)
    ensures Inv(k, Call(k, v, pc, fault).0, Call(k, v, pc, fault).1)
  {
    if pc.GetService? {
      StatusForIsCoherent(k, pc.w, pc.d);
    }
  }

  lemma CallKeepsInv(k: Key, v: View, pc: Pc, fault: Fault)
    requires Inv(k, v, pc)
    ensures Inv(k, Call(k, v, pc, fault).0, Call(k, v, pc, fault).1)
  {
    if InCleanup(pc) {
      CleanupKeepsInv(k, v, pc, fault);
    } else if pc.SendDeployment? || pc.SendService? {
      CreationKeepsInv(k, v, pc, fault);
    } else if InReading(pc) {
      ReadingKeepsInv(k, v, pc, fault);
    } else if pc.AddFinalizer? {
      AddingKeepsInv(k, v, pc, fault);
    } else {
      WritingKeepsInv(k, v, pc, fault);
    }
  }

  /** The part of a Deployment that reports and scaling leave alone. */
  predicate SameBuild(d: Deployment, d': Deployment) {
    d'.owner == d.owner && d'.labels == d.labels && d'.selector == d.selector && d'.template == d.template
  }

  lemma BuiltForKept(k: Key, d: Deployment, d': Deployment)
    requires BuiltFor(k, d) && SameBuild(d, d')
    ensures BuiltFor(k, d')
  {
    var spec :| Accepts(spec) && d.labels == DeploymentLabels(k, spec) && d.template == Template(k, spec);
    assert d'.template == Template(k, spec);
  }

  predicate OnChildren(c: Change) {
    c.RemoveDeployment? || c.RemoveService? || c.ReportStatus? || c.Scale?
  }

  lemma ChildChangeKeepsPcInv(k: Key, v: View, pc: Pc, c: Change)
    requires NoOrphans(v) && PcInv(k, v, pc) && OnChildren(c)
    requires v.workload.Some? ==> SaneWorkload(k, v.revision, v.workload.value)
    ensures NoOrphans(Apply(v, c)) && PcInv(k, Apply(v, c), pc)
    ensures v.workload.Some? ==> SaneWorkload(k, Apply(v, c).revision, v.workload.value)
  {
  }

  lemma WorkloadChangeKeepsPcInv(k: Key, v: View, pc: Pc, c: Change)
    requires NoOrphans(v) && PcInv(k, v, pc) && !OnChildren(c)
    requires v.workload.Some? ==> SaneWorkload(k, v.revision, v.workload.value)
    ensures NoOrphans(Apply(v, c)) && PcInv(k, Apply(v, c), pc)
    ensures Apply(v, c).workload.Some? ==> SaneWorkload(k, Apply(v, c).revision, Apply(v, c).workload.value)
  {
  }

  lemma ChangeFrame(v: View, c: Change)
    ensures var v' := Apply(v, c);
            && (v'.deployment.Some? ==> v.deployment.Some? && SameBuild(v.deployment.value, v'.deployment.value))
            && (v'.service.Some? ==> v'.service == v.service)
            && (OnChildren(c) ==> v'.workload == v.workload)
  {
  }

  lemma ApplyKeepsInv(k: Key, v: View, pc: Pc, c: Change)
    requires Inv(k, v, pc)
    ensures Inv(k, Apply(v, c), pc)
  {
    ChangeFrame(v, c);
    if OnChildren(c) {
      ChildChangeKeepsPcInv(k, v, pc, c);
    } else {
      WorkloadChangeKeepsPcInv(k, v, pc, c);
    }
    if Apply(v, c).deployment.Some? {
      BuiltForKept(k, v.deployment.value, Apply(v, c).deployment.value);
    }
  }

  lemma LocalStepKeepsInv(k: Key, v: View, pc: Pc, a: Action)
    requires Inv(k, v, pc)
    ensures Inv(k, LocalStep(k, v, pc, a).0, LocalStep(k, v, pc, a).1)
  {
    match a {
      case Proceed(fault) => CallKeepsInv(k, v, pc, fault);
      case Environment(change) => ApplyKeepsInv(k, v, pc, change);
      case _ =>
    }
  }

  lemma RevisionKeepsInv(k: Key, v: View, pc: Pc, revision: nat)
    requires Inv(k, v, pc) && v.revision <= revision
    ensures Inv(k, v.(revision := revision), pc)
  {
  }

  // ----- whole runs

  ghost predicate GlobalInv(g: State) {
    forall k :: Inv(k, ViewOf(g.store, k), PcOf(g, k))
  }

  /** The operator has just been installed: any admitted workloads, no children yet, no pass running. */
  ghost predicate Initial(g: State) {
    && g.pcs == map[]
    && (forall k :: DeploymentKey(k) !in g.store.deployments && ServiceKey(k) !in g.store.services)
    && (forall k :: k in g.store.workloads ==>
          var w := g.store.workloads[k];
          w.version <= g.store.revision && w.uid <= g.store.revision && Accepts(w.spec)
          && w.status == Status(Unset, "", NoMessage))
  }

  lemma InitialInv(g: State)
    requires Initial(g)
    ensures GlobalInv(g)
  {
  }

  lemma StepKeepsInv(g: State, e: Event)
    requires GlobalInv(g)
    ensures GlobalInv(Step(g, e))
  {
    forall k ensures Inv(k, ViewOf(Step(g, e).store, k), PcOf(Step(g, e), k)) {
      var v, pc := ViewOf(g.store, k), PcOf(g, k);
      assert Inv(k, v, pc);
      if k == e.key {
        Projection(g, e);
        LocalStepKeepsInv(k, v, pc, e.action);
      } else {
        Isolation(g, e, k);
        RevisionKeepsInv(k, v, pc, Step(g, e).store.revision);
      }
    }
  }

  lemma {:induction false} RunKeepsInv(g: State, events: seq<Event>)
    requires GlobalInv(g)
    ensures GlobalInv(Run(g, events))
  {
    if events != [] {
      RunKeepsInv(g, events[..|events| - 1]);
      StepKeepsInv(Run(g, events[..|events| - 1]), events[|events| - 1]);
    }
  }

  /** Finalizer safety and status coherence in every reachable state, for every workload name. */
  lemma RunsAreSafe(g: State, events: seq<Event>, k: Key)
    requires Initial(g)
    ensures NoOrphans(ViewOf(Run(g, events).store, k))
    ensures k in Run(g, events).store.workloads ==> Coherent(k, Run(g, events).store.workloads[k].status)
  {
    InitialInv(g);
    RunKeepsInv(g, events);
    assert Inv(k, ViewOf(Run(g, events).store, k), PcOf(Run(g, events), k));
  }

  /** While a child exists no step can make the workload vanish, replace it or release it. */
  lemma ChildPinsWorkload(g: State, e: Event, k: Key)
    requires GlobalInv(g)
    requires ViewOf(g.store, k).deployment.Some? || ViewOf(g.store, k).service.Some?
    ensures HasFinalizer(ViewOf(Step(g, e).store, k))
    ensures ViewOf(Step(g, e).store, k).workload.value.uid == ViewOf(g.store, k).workload.value.uid
  {
    assert Inv(k, ViewOf(g.store, k), PcOf(g, k));
    if k == e.key {
      Projection(g, e);
      LocalPin(k, ViewOf(g.store, k), PcOf(g, k), e.action);
    } else {
      Isolation(g, e, k);
    }
  }

  lemma LocalPin(k: Key, v: View, pc: Pc, a: Action)
    requires NoOrphans(v) && PcInv(k, v, pc) && (v.deployment.Some? || v.service.Some?)
    ensures HasFinalizer(LocalStep(k, v, pc, a).0)
    ensures LocalStep(k, v, pc, a).0.workload.value.uid == v.workload.value.uid
  {
    match a {
      case Environment(change) =>
      case Proceed(fault) =>
        if InCleanup(pc) {
          assert !pc.RemoveFinalizer?;
        }
      case _ =>
    }
  }

  /** What the operator may do to a workload name: on the workload it changes nothing but its own finalizer and
      the status; the object vanishes only when marked and held by nobody else; existing children are never
      edited, and none is removed from a workload that is not marked. */
  predicate Restrained(v: View, v': View) {
    && (v.workload.None? ==> v' == v)
    && (v.workload.Some? && v'.workload.Some? ==>
          var (w, w') := (v.workload.value, v'.workload.value);
          && w'.uid == w.uid && w'.deleting == w.deleting && w'.spec == w.spec
          && w'.finalizers - {FINALIZER} == w.finalizers - {FINALIZER})
    && (v.workload.Some? && v'.workload.None? ==>
          v.workload.value.deleting && v.workload.value.finalizers == {FINALIZER})
    && (v.deployment.Some? && v'.deployment.Some? ==> v'.deployment == v.deployment)
    && (v.service.Some? && v'.service.Some? ==> v'.service == v.service)
    && (v.workload.Some? && !v.workload.value.deleting ==>
          && (v.deployment.Some? ==> v'.deployment.Some?)
          && (v.service.Some? ==> v'.service.Some?)
          && (FINALIZER in v.workload.value.finalizers ==> HasFinalizer(v')))
  }

  /** The operator's own calls, faulty or not, keep to that. */
  lemma OperatorIsRestrained(k: Key, v: View, pc: Pc, fault: Fault)
    requires Inv(k, v, pc)
    ensures Restrained(v, Call(k, v, pc, fault).0)
  {
    if InCleanup(pc) {
      CleanupIsRestrained(k, v, pc, fault);
    }
  }

  lemma CleanupIsRestrained(k: Key, v: View, pc: Pc, fault: Fault)
    requires PcInv(k, v, pc) && InCleanup(pc)
    ensures Restrained(v, Call(k, v, pc, fault).0)
  {
  }

  // ----- selection

  /** In every reachable state a Service selects the pods of a Deployment in its namespace exactly when both
      belong to the same workload. */
  lemma ServiceSelectsOwnPods(g: State, events: seq<Event>, j: Key, k: Key)
    requires Initial(g) && j.namespace == k.namespace
    requires ViewOf(Run(g, events).store, j).service.Some? && ViewOf(Run(g, events).store, k).deployment.Some?
    ensures var h := Run(g, events).store;
            Selects(ViewOf(h, j).service.value.selector, ViewOf(h, k).deployment.value.template.labels) <==> j == k
  {
    InitialInv(g);
    RunKeepsInv(g, events);
    var h := Run(g, events);
    SelectsOwn(j, ViewOf(h.store, j), PcOf(h, j), k, ViewOf(h.store, k), PcOf(h, k));
  }

  /** Likewise for the Deployments themselves. */
  lemma DeploymentSelectsOwnPods(g: State, events: seq<Event>, j: Key, k: Key)
    requires Initial(g) && j.namespace == k.namespace
    requires ViewOf(Run(g, events).store, j).deployment.Some? && ViewOf(Run(g, events).store, k).deployment.Some?
    ensures var h := Run(g, events).store;
            Selects(ViewOf(h, j).deployment.value.selector, ViewOf(h, k).deployment.value.template.labels) <==> j == k
  {
    InitialInv(g);
    RunKeepsInv(g, events);
    var h := Run(g, events);
    assert Inv(j, ViewOf(h.store, j), PcOf(h, j)) && Inv(k, ViewOf(h.store, k), PcOf(h, k));
    var d := ViewOf(h.store, k).deployment.value;
    var spec :| Accepts(spec) && d.labels == DeploymentLabels(k, spec) && d.template == Template(k, spec);
    SelectorMatches(j, k, spec);
  }

  lemma SelectsOwn(j: Key, v: View, pc: Pc, k: Key, v': View, pc': Pc)
    requires Inv(j, v, pc) && Inv(k, v', pc') && j.namespace == k.namespace
    requires v.service.Some? && v'.deployment.Some?
    ensures Selects(v.service.value.selector, v'.deployment.value.template.labels) <==> j == k
  {
    var spec :| Accepts(spec) && v'.deployment.value.labels == DeploymentLabels(k, spec)
                && v'.deployment.value.template == Template(k, spec);
    SelectorMatches(j, k, spec);
  }

  lemma SelectorMatches(j: Key, k: Key, spec: Spec)
    requires j.namespace == k.namespace
    ensures Selects(Selector(j), DeploymentLabels(k, spec)) <==> j == k
  {
    assert Selector(j)["aperture.ai/workload"] == j.name;
    assert DeploymentLabels(k, spec)["aperture.ai/workload"] == k.name;
  }
}
