/** Where things in the cluster come from: over whole runs, a reported Running goes back to a Deployment that
    really was up, and every Deployment to a fetch of the workload it was built for. */
module ControllerProvenance {
  import opened Options
  import opened Cluster
  import opened Controller
  import opened ControllerSafety

  // ----- Running is earned

  /** The Deployment of incarnation `u` is up with these replica counts. */
  predicate Up(g: State, k: Key, u: nat, ready: int, desired: int) {
    var d := ViewOf(g.store, k).deployment;
    && d.Some? && d.value.owner == u && d.value.ready == ready && Desired(d.value) == desired
  }

  ghost predicate WasUp(g: State, events: seq<Event>, k: Key, u: nat, ready: int, desired: int) {
    exists i :: 0 <= i <= |events| && Up(Run(g, events[..i]), k, u, ready, desired)
  }

  lemma WasUpGrows(g: State, events: seq<Event>, e: Event, k: Key, u: nat, ready: int, desired: int)
    requires WasUp(g, events, k, u, ready, desired)
    ensures WasUp(g, events + [e], k, u, ready, desired)
  {
    var i :| 0 <= i <= |events| && Up(Run(g, events[..i]), k, u, ready, desired);
    assert (events + [e])[..i] == events[..i];
  }

  /** A Running status of incarnation `u` carries replica counts with all desired replicas, and at least one,
      ready, and its own Deployment once had them. */
  ghost predicate EarnedStatus(g: State, events: seq<Event>, k: Key, u: nat, s: Status) {
    s.phase == Running ==>
      && s.message.ServerRunning? && s.message.ready >= s.message.desired > 0
      && WasUp(g, events, k, u, s.message.ready, s.message.desired)
  }

  /** The workload a pass works for. */
  function Fetched(pc: Pc): Option<Workload> {
    if pc.Idle? || pc.GetWorkload? then None else Some(pc.w)
  }

  /** The Deployment a pass has read, while it needs it. */
  function Snapshot(pc: Pc): Option<Deployment> {
    if pc.GetService? || pc.SetServiceOwner? || pc.SendService? then Some(pc.d) else None
  }

  ghost predicate EarnedPc(g: State, events: seq<Event>, k: Key, pc: Pc) {
    && (Snapshot(pc).Some? ==>
          WasUp(g, events, k, Fetched(pc).value.uid, Snapshot(pc).value.ready, Desired(Snapshot(pc).value)))
    && (pc.WriteStatus? ==> EarnedStatus(g, events, k, pc.w.uid, pc.status))
  }

  /** A stored Running comes from a status write, a status write of Running from the snapshot, the snapshot
      from the store; all within one incarnation. */
  predicate Sourced(k: Key, v: View, pc: Pc, v': View, pc': Pc) {
    && (v'.workload.Some? && v'.workload.value.status.phase == Running ==>
          var w' := v'.workload.value;
          || (v.workload.Some? && v.workload.value.status == w'.status && v.workload.value.uid == w'.uid)
          || (pc.WriteStatus? && pc.status == w'.status && pc.w.uid == w'.uid))
    && (pc'.WriteStatus? && pc'.status.phase == Running ==>
          || pc == pc'
          || (Snapshot(pc).Some? && pc'.status == StatusFor(k, Snapshot(pc).value) && pc'.w == pc.w))
    && (Snapshot(pc').Some? ==>
          || (Snapshot(pc') == Snapshot(pc) && Fetched(pc') == Fetched(pc))
          || (Snapshot(pc') == v.deployment && Snapshot(pc').value.owner == Fetched(pc').value.uid))
  }

  lemma CallSourced(k: Key, v: View, pc: Pc, fault: Fault)
    requires NoOrphans(v) && PcInv(k, v, pc)
    ensures Sourced(k, v, pc, Call(k, v, pc, fault).0, Call(k, v, pc, fault).1)
  {
    if InCleanup(pc) {
      CleanupSourced(k, v, pc, fault);
    }
  }

  lemma CleanupSourced(k: Key, v: View, pc: Pc, fault: Fault)
    requires InCleanup(pc)
    ensures Sourced(k, v, pc, Call(k, v, pc, fault).0, Call(k, v, pc, fault).1)
  {
  }

  lemma ChangeSourced(k: Key, v: View, pc: Pc, c: Change)
    ensures Sourced(k, v, pc, Apply(v, c), pc)
  {
  }

  lemma StepSourced(g: State, e: Event, k: Key)
    requires GlobalInv(g)
    ensures Sourced(k, ViewOf(g.store, k), PcOf(g, k), ViewOf(Step(g, e).store, k), PcOf(Step(g, e), k))
  {
    var v, pc := ViewOf(g.store, k), PcOf(g, k);
    assert Inv(k, v, pc);
    if k == e.key {
      Projection(g, e);
      match e.action {
        case Proceed(fault) => CallSourced(k, v, pc, fault);
        case Environment(change) => ChangeSourced(k, v, pc, change);
        case _ =>
      }
    } else {
      Isolation(g, e, k);
    }
  }

  ghost predicate Earned(g: State, events: seq<Event>, k: Key, v: View, pc: Pc) {
    && (v.workload.Some? ==> EarnedStatus(g, events, k, v.workload.value.uid, v.workload.value.status))
    && EarnedPc(g, events, k, pc)
  }

  lemma EarnedStep(g: State, before: seq<Event>, e: Event, k: Key, h: State, v': View, pc': Pc)
    requires h == Run(g, before) && Earned(g, before, k, ViewOf(h.store, k), PcOf(h, k))
    requires Sourced(k, ViewOf(h.store, k), PcOf(h, k), v', pc')
    ensures Earned(g, before + [e], k, v', pc')
  {
    forall u, r, d | WasUp(g, before, k, u, r, d) ensures WasUp(g, before + [e], k, u, r, d) {
      WasUpGrows(g, before, e, k, u, r, d);
    }
    if ViewOf(h.store, k).deployment.Some? {
      var d := ViewOf(h.store, k).deployment.value;
      assert (before + [e])[..|before|] == before;
      assert Up(Run(g, (before + [e])[..|before|]), k, d.owner, d.ready, Desired(d));
    }
  }

  /** Whenever a workload is reported Running with some replica counts, the Deployment of that same incarnation
      did have them, all desired replicas and at least one ready, at some moment of the run. */
  lemma {:induction false} RunningIsEarned(g: State, events: seq<Event>, k: Key)
    requires Initial(g)
    ensures Earned(g, events, k, ViewOf(Run(g, events).store, k), PcOf(Run(g, events), k))
  {
    if events != [] {
      var before, e := events[..|events| - 1], events[|events| - 1];
      RunningIsEarned(g, before, k);
      InitialInv(g);
      RunKeepsInv(g, before);
      var h := Run(g, before);
      StepSourced(h, e, k);
      EarnedStep(g, before, e, k, h, ViewOf(Step(h, e).store, k), PcOf(Step(h, e), k));
      assert events == before + [e];
    }
  }

  // ----- every Deployment goes back to a fetch

  /** Event `i` of the run is the call by which a pass for `k` fetched `w`. */
  ghost predicate FetchedAt(g: State, events: seq<Event>, i: nat, k: Key, w: Workload) {
    && i < |events| && events[i] == Event(k, Proceed(NoFault))
    && PcOf(Run(g, events[..i]), k).GetWorkload?
    && ViewOf(Run(g, events[..i]).store, k).workload == Some(w)
  }

  ghost predicate WasFetched(g: State, events: seq<Event>, k: Key, w: Workload) {
    exists i: nat :: FetchedAt(g, events, i, k, w)
  }

  /** The Deployment was built from a workload that had been fetched, and is owned by it. */
  ghost predicate BuiltFromFetch(g: State, events: seq<Event>, k: Key, d: Deployment) {
    exists w :: WasFetched(g, events, k, w) && d.owner == w.uid && d.template == Template(k, w.spec)
  }

  ghost predicate FetchInv(g: State, events: seq<Event>, k: Key, v: View, pc: Pc) {
    && (Fetched(pc).Some? ==> WasFetched(g, events, k, Fetched(pc).value))
    && (v.deployment.Some? ==> BuiltFromFetch(g, events, k, v.deployment.value))
  }

  /** A pass keeps the workload it fetched from the store, and a Deployment appears only as built from it. */
  predicate FetchSourced(k: Key, v: View, pc: Pc, a: Action, v': View, pc': Pc) {
    && (Fetched(pc').Some? ==>
          || Fetched(pc') == Fetched(pc)
          || (pc.GetWorkload? && a == Proceed(NoFault) && Fetched(pc') == v.workload))
    && (v'.deployment.Some? ==>
          || (v.deployment.Some? && SameBuild(v.deployment.value, v'.deployment.value))
          || (pc.SendDeployment? && v'.deployment.value == BuildDeployment(k, pc.w)))
  }

  lemma LocalFetchSourced(k: Key, v: View, pc: Pc, a: Action)
    ensures FetchSourced(k, v, pc, a, LocalStep(k, v, pc, a).0, LocalStep(k, v, pc, a).1)
  {
    match a {
      case Environment(change) => ChangeFrame(v, change);
      case _ =>
    }
  }

  lemma WasFetchedGrows(g: State, events: seq<Event>, e: Event, k: Key, w: Workload)
    requires WasFetched(g, events, k, w)
    ensures WasFetched(g, events + [e], k, w)
  {
    var i: nat :| FetchedAt(g, events, i, k, w);
    assert (events + [e])[..i] == events[..i];
    assert FetchedAt(g, events + [e], i, k, w);
  }

  lemma BuiltFromFetchGrows(g: State, events: seq<Event>, e: Event, k: Key, d: Deployment, d': Deployment)
    requires BuiltFromFetch(g, events, k, d) && SameBuild(d, d')
    ensures BuiltFromFetch(g, events + [e], k, d')
  {
    var w :| WasFetched(g, events, k, w) && d.owner == w.uid && d.template == Template(k, w.spec);
    WasFetchedGrows(g, events, e, k, w);
    assert d'.template == Template(k, w.spec);
  }

  lemma FetchStep(g: State, before: seq<Event>, e: Event, k: Key, h: State, v': View, pc': Pc)
    requires h == Run(g, before) && e.key == k && FetchInv(g, before, k, ViewOf(h.store, k), PcOf(h, k))
    requires FetchSourced(k, ViewOf(h.store, k), PcOf(h, k), e.action, v', pc')
    ensures FetchInv(g, before + [e], k, v', pc')
  {
    var v, pc, events := ViewOf(h.store, k), PcOf(h, k), before + [e];
    if Fetched(pc').Some? {
      var w := Fetched(pc').value;
      if Fetched(pc') == Fetched(pc) {
        WasFetchedGrows(g, before, e, k, w);
      } else {
        assert events[..|before|] == before;
        assert FetchedAt(g, events, |before|, k, w);
      }
    }
    if v'.deployment.Some? {
      var d' := v'.deployment.value;
      if v.deployment.Some? && SameBuild(v.deployment.value, d') {
        BuiltFromFetchGrows(g, before, e, k, v.deployment.value, d');
      } else {
        WasFetchedGrows(g, before, e, k, pc.w);
        assert d'.template == Template(k, pc.w.spec);
      }
    }
  }

  lemma FetchInvElsewhere(g: State, before: seq<Event>, e: Event, k: Key, v: View, pc: Pc, v': View)
    requires FetchInv(g, before, k, v, pc) && v'.deployment == v.deployment
    ensures FetchInv(g, before + [e], k, v', pc)
  {
    if Fetched(pc).Some? {
      WasFetchedGrows(g, before, e, k, Fetched(pc).value);
    }
    if v.deployment.Some? {
      BuiltFromFetchGrows(g, before, e, k, v.deployment.value, v.deployment.value);
    }
  }

  lemma {:induction false} FetchInvKept(g: State, events: seq<Event>, k: Key)
    requires Initial(g)
    ensures FetchInv(g, events, k, ViewOf(Run(g, events).store, k), PcOf(Run(g, events), k))
  {
    if events != [] {
      var before, e := events[..|events| - 1], events[|events| - 1];
      var h := Run(g, before);
      var v, pc := ViewOf(h.store, k), PcOf(h, k);
      FetchInvKept(g, before, k);
      assert events == before + [e];
      if k == e.key {
        Projection(h, e);
        LocalFetchSourced(k, v, pc, e.action);
        FetchStep(g, before, e, k, h, ViewOf(Step(h, e).store, k), PcOf(Step(h, e), k));
      } else {
        Isolation(h, e, k);
        FetchInvElsewhere(g, before, e, k, v, pc, ViewOf(Step(h, e).store, k));
      }
    }
  }

  /** Every Deployment of a reachable state was built from the spec that the incarnation in its owner reference
      held at an identified fetch; that incarnation is still the stored one. */
  lemma DeploymentFromFetch(g: State, events: seq<Event>, k: Key) returns (i: nat, w: Workload)
    requires Initial(g) && ViewOf(Run(g, events).store, k).deployment.Some?
    ensures var v := ViewOf(Run(g, events).store, k);
            && FetchedAt(g, events, i, k, w) && Accepts(w.spec)
            && v.deployment.value.template == Template(k, w.spec)
            && v.workload.Some? && v.workload.value.uid == v.deployment.value.owner == w.uid
  {
    FetchInvKept(g, events, k);
    RunsAreSafe(g, events, k);
    var d := ViewOf(Run(g, events).store, k).deployment.value;
    w :| WasFetched(g, events, k, w) && d.owner == w.uid && d.template == Template(k, w.spec);
    i :| FetchedAt(g, events, i, k, w);
    InitialInv(g);
    RunKeepsInv(g, events[..i]);
    var h := Run(g, events[..i]);
    assert Inv(k, ViewOf(h.store, k), PcOf(h, k));
  }

  /** A Deployment appears only in a pass for its workload, which is the stored one and not marked in the pass's copy; it
      desires one replica, reports none, and its selector selects its pods. */
  lemma NewDeployment(g: State, e: Event, k: Key)
    requires GlobalInv(g)
    requires ViewOf(g.store, k).deployment.None? && ViewOf(Step(g, e).store, k).deployment.Some?
    ensures e.key == k && PcOf(g, k).SendDeployment? && e.action.Proceed?
    ensures var (v, d) := (ViewOf(Step(g, e).store, k), ViewOf(Step(g, e).store, k).deployment.value);
            && v.workload.Some? && d.owner == v.workload.value.uid == PcOf(g, k).w.uid
            && Desired(d) == 1 && d.replicas.Some? && d.ready == 0 && d.unavailable == 0 && d.conditions == []
            && Selects(d.selector, d.template.labels)
  {
    assert Inv(k, ViewOf(g.store, k), PcOf(g, k));
    if k == e.key {
      Projection(g, e);
      LocalNewDeployment(k, ViewOf(g.store, k), PcOf(g, k), e.action);
    } else {
      Isolation(g, e, k);
    }
  }

  lemma LocalNewDeployment(k: Key, v: View, pc: Pc, a: Action)
    requires NoOrphans(v) && PcInv(k, v, pc)
    requires v.deployment.None? && LocalStep(k, v, pc, a).0.deployment.Some?
    ensures pc.SendDeployment? && a.Proceed? && LocalStep(k, v, pc, a).0.workload == v.workload
    ensures LocalStep(k, v, pc, a).0.deployment.value == BuildDeployment(k, pc.w)
    ensures Selects(Selector(k), DeploymentLabels(k, pc.w.spec))
  {
    match a {
      case Environment(change) => ChangeFrame(v, change);
      case _ =>
    }
  }

  /** A Service appears likewise; it carries the labels it selects by. */
  lemma NewService(g: State, e: Event, k: Key)
    requires GlobalInv(g)
    requires ViewOf(g.store, k).service.None? && ViewOf(Step(g, e).store, k).service.Some?
    ensures e.key == k && PcOf(g, k).SendService? && e.action.Proceed?
    ensures var (v, s) := (ViewOf(Step(g, e).store, k), ViewOf(Step(g, e).store, k).service.value);
            && v.workload.Some? && s.owner == v.workload.value.uid == PcOf(g, k).w.uid
            && s.labels == s.selector
            && s.labels == map["app" := "aperture-inference", "aperture.ai/workload" := k.name]
  {
    var v, pc := ViewOf(g.store, k), PcOf(g, k);
    assert Inv(k, v, pc);
    if k == e.key {
      Projection(g, e);
      match e.action {
        case Environment(change) => ChangeFrame(v, change);
        case _ =>
      }
    } else {
      Isolation(g, e, k);
    }
  }

  /** No step of anyone changes what an existing Deployment was built with: it stays as it is, or is removed. */
  lemma BuildIsFixed(g: State, e: Event, k: Key)
    requires ViewOf(g.store, k).deployment.Some? && ViewOf(Step(g, e).store, k).deployment.Some?
    ensures SameBuild(ViewOf(g.store, k).deployment.value, ViewOf(Step(g, e).store, k).deployment.value)
  {
    if k == e.key {
      Projection(g, e);
      LocalBuildIsFixed(k, ViewOf(g.store, k), PcOf(g, k), e.action);
    } else {
      Isolation(g, e, k);
    }
  }

  lemma LocalBuildIsFixed(k: Key, v: View, pc: Pc, a: Action)
    requires v.deployment.Some? && LocalStep(k, v, pc, a).0.deployment.Some?
    ensures SameBuild(v.deployment.value, LocalStep(k, v, pc, a).0.deployment.value)
  {
    match a {
      case Environment(change) => ChangeFrame(v, change);
      case _ =>
    }
  }

  // ----- the stored quota after a fetch

  /** The event is an edit of `k` that takes effect. */
  predicate Edits(g: State, e: Event, k: Key) {
    && e.key == k && e.action.Environment? && e.action.change.EditWorkload?
    && Apply(ViewOf(g.store, k), e.action.change) != ViewOf(g.store, k)
  }

  /** The quota that the last edit to take effect from event `i` on asked for, `q` if there was none. */
  function LastQuota(g: State, events: seq<Event>, i: nat, k: Key, q: int): int
    requires i <= |events|
    decreases |events|
  {
    if i == |events| then q
    else
      var before, e := events[..|events| - 1], events[|events| - 1];
      if Edits(Run(g, before), e, k) then e.action.change.spec.tokenQuota else LastQuota(g, before, i, k, q)
  }

  /** Incarnation `u`, as long as it lives, has the quota `q`. */
  predicate HasQuota(v: View, u: nat, q: int) {
    u <= v.revision && (v.workload.Some? && v.workload.value.uid == u ==> v.workload.value.spec.tokenQuota == q)
  }

  lemma ChangeQuota(v: View, c: Change, u: nat, q: int)
    requires HasQuota(v, u, q)
    ensures HasQuota(Apply(v, c), u, if c.EditWorkload? && Apply(v, c) != v then c.spec.tokenQuota else q)
  {
  }

  lemma QuotaStep(g: State, e: Event, k: Key, u: nat, q: int)
    requires GlobalInv(g) && HasQuota(ViewOf(g.store, k), u, q)
    ensures HasQuota(ViewOf(Step(g, e).store, k), u, if Edits(g, e, k) then e.action.change.spec.tokenQuota else q)
  {
    var v, pc := ViewOf(g.store, k), PcOf(g, k);
    if k == e.key {
      Projection(g, e);
      RevisionGrows(k, v, pc, e.action);
      match e.action {
        case Proceed(fault) =>
          assert Inv(k, v, pc);
          OperatorIsRestrained(k, v, pc, fault);
        case Environment(change) => ChangeQuota(v, change, u, q);
        case _ =>
      }
    } else {
      Isolation(g, e, k);
    }
  }

  /** Over whole runs, an incarnation has the quota of the last edit. */
  lemma {:induction false} QuotaFollowsEdits(g: State, events: seq<Event>, i: nat, k: Key, u: nat, q: int)
    requires Initial(g) && i <= |events|
    requires HasQuota(ViewOf(Run(g, events[..i]).store, k), u, q)
    ensures HasQuota(ViewOf(Run(g, events).store, k), u, LastQuota(g, events, i, k, q))
    decreases |events|
  {
    if i == |events| {
      assert events[..i] == events;
    } else {
      var before, e := events[..|events| - 1], events[|events| - 1];
      assert before[..i] == events[..i];
      QuotaFollowsEdits(g, before, i, k, u, q);
      InitialInv(g);
      RunKeepsInv(g, before);
      QuotaStep(Run(g, before), e, k, u, LastQuota(g, before, i, k, q));
    }
  }

  /** From event `i` on, no edit asks for another quota than `q`. */
  predicate NoQuotaEdit(events: seq<Event>, i: nat, k: Key, q: int) {
    forall j :: i <= j < |events| && events[j].key == k && events[j].action.Environment?
                && events[j].action.change.EditWorkload? ==>
                  events[j].action.change.spec.tokenQuota == q
  }

  lemma {:induction false} NoEditNoChange(g: State, events: seq<Event>, i: nat, k: Key, q: int)
    requires i <= |events| && NoQuotaEdit(events, i, k, q)
    ensures LastQuota(g, events, i, k, q) == q
    decreases |events|
  {
    if i < |events| {
      NoEditNoChange(g, events[..|events| - 1], i, k, q);
    }
  }
}
