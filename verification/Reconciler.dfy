/** The reconciler as the operator runs it: a sequence of API calls on a shared cluster. Each method is proved
    to be an execution of the pass machine of module Controller. */
module Reconciler {
  import opened Options
  import opened Cluster
  import opened Controller
  import ControllerProgress
  import ControllerSafety

  /** What befalls one call: the changes other parties make before it is served, and its fault. */
  datatype Tick = Tick(changes: seq<(Key, Change)>, fault: Fault)

  function Interfere(s: Store, changes: seq<(Key, Change)>): Store
    decreases changes
  {
    if changes == [] then s
    else
      var (k, c) := changes[0];
      Interfere(Put(s, k, Apply(ViewOf(s, k), c)), changes[1..])
  }

  /** The rest of a pass, its first call being number `at` of the schedule: the final store, how the pass
      ended and the number of the first call it did not make. */
  function Complete(k: Key, s: Store, pc: Pc, ticks: nat -> Tick, at: nat): (Store, PassResult, nat)
    decreases Rank(pc)
  {
    if pc.Idle? then (s, pc.last, at)
    else
      var s' := Interfere(s, ticks(at).changes);
      var (v, pc') := Call(k, ViewOf(s', k), pc, ticks(at).fault);
      CallDescends(k, ViewOf(s', k), pc, ticks(at).fault);
      Complete(k, Put(s', k, v), pc', ticks, at + 1)
  }

  /** The API server as the operator's client sees it. */
  class Client {
    var store: Store
    var calls: nat
    const ticks: nat -> Tick

    constructor (store: Store, ticks: nat -> Tick)
      ensures this.store == store && this.ticks == ticks && calls == 0
    {
      this.store := store;
      this.ticks := ticks;
      calls := 0;
    }

    /** The store at the moment the next call is served. */
    ghost function Served(): Store
      reads this
    {
      Interfere(store, ticks(calls).changes)
    }

    ghost function Fault(): Fault
      reads this
    {
      ticks(calls).fault
    }

    method Arrive() returns (fault: Fault)
      modifies this
      ensures calls == old(calls) + 1 && store == old(Served()) && fault == old(Fault())
    {
      var tick := ticks(calls);
      calls := calls + 1;
      fault := tick.fault;
      var i := 0;
      while i < |tick.changes|
        invariant 0 <= i <= |tick.changes|
        invariant calls == old(calls) + 1
        invariant Interfere(store, tick.changes[i..]) == old(Served())
      {
        var (k, c) := tick.changes[i];
        store := Put(store, k, Apply(ViewOf(store, k), c));
        i := i + 1;
      }
    }

    method GetWorkload(k: Key) returns (w: Option<Workload>, error: Option<ApiError>)
      modifies this
      ensures calls == old(calls) + 1 && store == old(Served())
      ensures var found := ViewOf(store, k).workload;
              if old(Fault()) != NoFault then error == Some(Unavailable)
              else if found.None? then error == Some(NotFound)
              else error.None? && w == found
    {
      var fault := Arrive();
      w := None;
      if fault != NoFault {
        error := Some(Unavailable);
      } else if k in store.workloads {
        w, error := Some(store.workloads[k]), None;
      } else {
        error := Some(NotFound);
      }
    }

    method GetDeployment(name: Key, ghost k: Key) returns (d: Option<Deployment>, error: Option<ApiError>)
      requires name == DeploymentKey(k)
      modifies this
      ensures calls == old(calls) + 1 && store == old(Served())
      ensures var found := ViewOf(store, k).deployment;
              if old(Fault()) != NoFault then error == Some(Unavailable)
              else if found.None? then error == Some(NotFound)
              else error.None? && d == found
    {
      var fault := Arrive();
      d := None;
      if fault != NoFault {
        error := Some(Unavailable);
      } else if name in store.deployments {
        d, error := Some(store.deployments[name]), None;
      } else {
        error := Some(NotFound);
      }
    }

    method GetService(name: Key, ghost k: Key) returns (s: Option<Service>, error: Option<ApiError>)
      requires name == ServiceKey(k)
      modifies this
      ensures calls == old(calls) + 1 && store == old(Served())
      ensures var found := ViewOf(store, k).service;
              if old(Fault()) != NoFault then error == Some(Unavailable)
              else if found.None? then error == Some(NotFound)
              else error.None? && s == found
    {
      var fault := Arrive();
      s := None;
      if fault != NoFault {
        error := Some(Unavailable);
      } else if name in store.services {
        s, error := Some(store.services[name]), None;
      } else {
        error := Some(NotFound);
      }
    }

    /** A local call, which may fail as well. */
    method SetControllerReference() returns (error: Option<ApiError>)
      modifies this
      ensures calls == old(calls) + 1 && store == old(Served())
      ensures error == if old(Fault()) != NoFault then Some(Unavailable) else None
    {
      var fault := Arrive();
      error := if fault != NoFault then Some(Unavailable) else None;
    }

    method CreateDeployment(name: Key, d: Deployment, ghost k: Key) returns (error: Option<ApiError>)
      requires name == DeploymentKey(k)
      modifies this
      ensures calls == old(calls) + 1
      ensures var v := ViewOf(old(Served()), k);
              var reply := Deliver(v, old(Fault()), Cluster.CreateDeployment(v, d));
              store == Put(old(Served()), k, reply.view) && error == reply.error
    {
      var fault := Arrive();
      if fault == LostRequest {
        error := Some(Unavailable);
      } else if name in store.deployments {
        error := Some(AlreadyExists);
      } else {
        store := store.(deployments := store.deployments[name := d], revision := store.revision + 1);
        error := if fault == LostReply then Some(Unavailable) else None;
      }
    }

    method CreateService(name: Key, s: Service, ghost k: Key) returns (error: Option<ApiError>)
      requires name == ServiceKey(k)
      modifies this
      ensures calls == old(calls) + 1
      ensures var v := ViewOf(old(Served()), k);
              var reply := Deliver(v, old(Fault()), Cluster.CreateService(v, s));
              store == Put(old(Served()), k, reply.view) && error == reply.error
    {
      var fault := Arrive();
      if fault == LostRequest {
        error := Some(Unavailable);
      } else if name in store.services {
        error := Some(AlreadyExists);
      } else {
        store := store.(services := store.services[name := s], revision := store.revision + 1);
        error := if fault == LostReply then Some(Unavailable) else None;
      }
    }

    method DeleteDeployment(name: Key, ghost k: Key) returns (error: Option<ApiError>)
      requires name == DeploymentKey(k)
      modifies this
      ensures calls == old(calls) + 1
      ensures var v := ViewOf(old(Served()), k);
              var reply := Deliver(v, old(Fault()), Cluster.DeleteDeployment(v));
              store == Put(old(Served()), k, reply.view) && error == reply.error
    {
      var fault := Arrive();
      if fault == LostRequest {
        error := Some(Unavailable);
      } else if name !in store.deployments {
        error := Some(NotFound);
      } else {
        store := store.(deployments := store.deployments - {name}, revision := store.revision + 1);
        error := if fault == LostReply then Some(Unavailable) else None;
      }
    }

    method DeleteService(name: Key, ghost k: Key) returns (error: Option<ApiError>)
      requires name == ServiceKey(k)
      modifies this
      ensures calls == old(calls) + 1
      ensures var v := ViewOf(old(Served()), k);
              var reply := Deliver(v, old(Fault()), Cluster.DeleteService(v));
              store == Put(old(Served()), k, reply.view) && error == reply.error
    {
      var fault := Arrive();
      if fault == LostRequest {
        error := Some(Unavailable);
      } else if name !in store.services {
        error := Some(NotFound);
      } else {
        store := store.(services := store.services - {name}, revision := store.revision + 1);
        error := if fault == LostReply then Some(Unavailable) else None;
      }
    }

    method Update(k: Key, w: Workload) returns (error: Option<ApiError>)
      modifies this
      ensures calls == old(calls) + 1
      ensures var v := ViewOf(old(Served()), k);
              var reply := Deliver(v, old(Fault()), UpdateWorkload(v, w));
              store == Put(old(Served()), k, reply.view) && error == reply.error
    {
      var fault := Arrive();
      if fault == LostRequest {
        error := Some(Unavailable);
      } else {
        var reply := UpdateWorkload(ViewOf(store, k), w);
        store := Put(store, k, reply.view);
        error := if fault == LostReply && reply.error.None? then Some(Unavailable) else reply.error;
      }
    }

    method StatusUpdate(k: Key, w: Workload) returns (error: Option<ApiError>)
      modifies this
      ensures calls == old(calls) + 1
      ensures var v := ViewOf(old(Served()), k);
              var reply := Deliver(v, old(Fault()), UpdateStatus(v, w));
              store == Put(old(Served()), k, reply.view) && error == reply.error
    {
      var fault := Arrive();
      if fault == LostRequest {
        error := Some(Unavailable);
      } else {
        var reply := UpdateStatus(ViewOf(store, k), w);
        store := Put(store, k, reply.view);
        error := if fault == LostReply && reply.error.None? then Some(Unavailable) else reply.error;
      }
    }
  }

  /** Reading leaves the store alone. */
  lemma PutSame(s: Store, k: Key)
    ensures Put(s, k, ViewOf(s, k)) == s
  {
  }

  class GPUWorkloadReconciler {
    const client: Client

    constructor (client: Client)
      ensures this.client == client
    {
      this.client := client;
    }

    method Reconcile(k: Key) returns (result: PassResult)
      modifies client
      ensures Complete(k, old(client.store), Controller.GetWorkload, client.ticks, old(client.calls))
           == (client.store, result, client.calls)
    {
      PutSame(client.Served(), k);
      var found, error := client.GetWorkload(k);
      if error.Some? {
        return if error == Some(NotFound) then Finished else Errored(error.value);
      }
      var workload := found.value;
      assert Complete(k, old(client.store), Controller.GetWorkload, client.ticks, old(client.calls))
          == Complete(k, client.store, AfterFetch(workload), client.ticks, client.calls);

      if workload.deleting {
        if FINALIZER in workload.finalizers {
          result := CleanUp(k, workload);
          return;
        }
        return Finished;
      }

      if FINALIZER !in workload.finalizers {
        workload := workload.(finalizers := workload.finalizers + {FINALIZER});
        error := client.Update(k, workload);
        if error.Some? {
          return Errored(error.value);
        }
        return RequeueNow;
      }
      result := EnsureChildren(k, workload);
    }

    /** The deletion branch. */
    method CleanUp(k: Key, workload: Workload) returns (result: PassResult)
      modifies client
      ensures Complete(k, old(client.store), CleanupGetDeployment(workload), client.ticks, old(client.calls))
           == (client.store, result, client.calls)
    {
      var error := DeleteOwnedResources(k, workload);
      if error.Some? {
        return Errored(error.value);
      }
      var updated := workload.(finalizers := workload.finalizers - {FINALIZER});
      error := client.Update(k, updated);
      if error.Some? {
        return Errored(error.value);
      }
      return Finished;
    }

    /** Steps 4 to 6 of a pass: the Deployment, the Service, the status. */
    method EnsureChildren(k: Key, workload: Workload) returns (result: PassResult)
      modifies client
      ensures Complete(k, old(client.store), Controller.GetDeployment(workload), client.ticks, old(client.calls))
           == (client.store, result, client.calls)
    {
      var deployName := Key(k.namespace, k.name + "-inference");
      PutSame(client.Served(), k);
      var existingDeploy, error := client.GetDeployment(deployName, k);
      if error.Some? && error != Some(NotFound) {
        return Errored(error.value);
      }
      if error == Some(NotFound) {
        assert Complete(k, old(client.store), Controller.GetDeployment(workload), client.ticks, old(client.calls))
            == Complete(k, client.store, SetDeploymentOwner(workload), client.ticks, client.calls);
        result := CreateMissingDeployment(k, workload, deployName);
        return;
      }
      var deploy := existingDeploy.value;

      error := EnsureService(k, workload, deploy);
      if error.Some? {
        return Errored(error.value);
      }
      result := ReportReadiness(k, workload, deploy);
    }

    method CreateMissingDeployment(k: Key, workload: Workload, deployName: Key) returns (result: PassResult)
      requires deployName == DeploymentKey(k)
      modifies client
      ensures Complete(k, old(client.store), SetDeploymentOwner(workload), client.ticks, old(client.calls))
           == (client.store, result, client.calls)
    {
      PutSame(client.Served(), k);
      var error := client.SetControllerReference();
      assert Complete(k, old(client.store), SetDeploymentOwner(workload), client.ticks, old(client.calls))
          == Complete(k, client.store, if error.Some? then Idle(Errored(error.value)) else SendDeployment(workload),
                      client.ticks, client.calls);
      if error.Some? {
        return Errored(error.value);
      }
      result := SendAndReport(k, workload, deployName);
    }

    method SendAndReport(k: Key, workload: Workload, deployName: Key) returns (result: PassResult)
      requires deployName == DeploymentKey(k)
      modifies client
      ensures Complete(k, old(client.store), SendDeployment(workload), client.ticks, old(client.calls))
           == (client.store, result, client.calls)
    {
      var error := client.CreateDeployment(deployName, BuildDeployment(k, workload), k);
      if error.Some? {
        result := SendStatus(k, workload, Failed, "", CreationFailed(error.value));
      } else {
        result := SendStatus(k, workload, Pending, deployName.name, DeploymentCreated);
      }
    }

    /** A failed creation of the Service is not an error. */
    method EnsureService(k: Key, workload: Workload, deploy: Deployment) returns (error: Option<ApiError>)
      modifies client
      ensures Complete(k, old(client.store), Controller.GetService(workload, deploy), client.ticks, old(client.calls))
           == if error.None? then Complete(k, client.store, Evaluate(k, workload, deploy), client.ticks, client.calls)
              else (client.store, Errored(error.value), client.calls)
    {
      var svcName := Key(k.namespace, k.name + "-svc");
      PutSame(client.Served(), k);
      var existingSvc, svcError := client.GetService(svcName, k);
      if svcError.Some? && svcError != Some(NotFound) {
        return svcError;
      }
      if svcError == Some(NotFound) {
        assert Complete(k, old(client.store), Controller.GetService(workload, deploy), client.ticks, old(client.calls))
            == Complete(k, client.store, SetServiceOwner(workload, deploy), client.ticks, client.calls);
        error := CreateMissingService(k, workload, deploy, svcName);
        return;
      }
      error := None;
    }

    method CreateMissingService(k: Key, workload: Workload, deploy: Deployment, svcName: Key)
      returns (error: Option<ApiError>)
      requires svcName == ServiceKey(k)
      modifies client
      ensures Complete(k, old(client.store), SetServiceOwner(workload, deploy), client.ticks, old(client.calls))
           == if error.None? then Complete(k, client.store, Evaluate(k, workload, deploy), client.ticks, client.calls)
              else (client.store, Errored(error.value), client.calls)
    {
      PutSame(client.Served(), k);
      error := client.SetControllerReference();
      assert Complete(k, old(client.store), SetServiceOwner(workload, deploy), client.ticks, old(client.calls))
          == Complete(k, client.store, if error.Some? then Idle(Errored(error.value)) else SendService(workload, deploy),
                      client.ticks, client.calls);
      if error.None? {
        var ignored := client.CreateService(svcName, BuildService(k, workload), k);
      }
    }

    /** Step 6: the status the Deployment calls for is written unless its phase is there already. */
    method ReportReadiness(k: Key, workload: Workload, deploy: Deployment) returns (result: PassResult)
      modifies client
      ensures Complete(k, old(client.store), Evaluate(k, workload, deploy), client.ticks, old(client.calls))
           == (client.store, result, client.calls)
    {
      var deployName := k.name + "-inference";
      var readyReplicas := deploy.ready;
      var desiredReplicas := 1;
      if deploy.replicas.Some? {
        desiredReplicas := deploy.replicas.value;
      }
      if readyReplicas >= desiredReplicas && desiredReplicas > 0 {
        if workload.status.phase != Running {
          result := SendStatus(k, workload, Running, deployName, ServerRunning(readyReplicas, desiredReplicas));
          return;
        }
      } else if deploy.unavailable > 0 {
        var i := 0;
        while i < |deploy.conditions|
          invariant 0 <= i <= |deploy.conditions|
          invariant client.store == old(client.store) && client.calls == old(client.calls)
          invariant FailureMessage(deploy.conditions) == FailureMessage(deploy.conditions[i..])
        {
          var cond := deploy.conditions[i];
          if cond.kind == "ReplicaFailure" && cond.status == "True" {
            result := SendStatus(k, workload, Failed, deployName, ReplicaFailure(cond.message));
            return;
          }
          i := i + 1;
        }
        if workload.status.phase != Pending {
          result := SendStatus(k, workload, Pending, deployName, PodsStartingUp);
          return;
        }
      } else {
        if workload.status.phase != Pending {
          result := SendStatus(k, workload, Pending, deployName, WaitingForPods);
          return;
        }
      }
      return Finished;
    }

    /** `deleteOwnedResources`: without an error the finalizer comes next. */
    method DeleteOwnedResources(k: Key, workload: Workload) returns (error: Option<ApiError>)
      modifies client
      ensures Complete(k, old(client.store), CleanupGetDeployment(workload), client.ticks, old(client.calls))
           == if error.None? then Complete(k, client.store, RemoveFinalizer(workload), client.ticks, client.calls)
              else (client.store, Errored(error.value), client.calls)
    {
      error := DeleteOwnedDeployment(k, workload);
      if error.None? {
        error := DeleteOwnedService(k, workload);
      }
    }

    method DeleteOwnedDeployment(k: Key, workload: Workload) returns (error: Option<ApiError>)
      modifies client
      ensures Complete(k, old(client.store), CleanupGetDeployment(workload), client.ticks, old(client.calls))
           == if error.None? then Complete(k, client.store, CleanupGetService(workload), client.ticks, client.calls)
              else (client.store, Errored(error.value), client.calls)
    {
      var deployName := Key(k.namespace, k.name + "-inference");
      PutSame(client.Served(), k);
      var deploy, getError := client.GetDeployment(deployName, k);
      if getError.Some? {
        if getError != Some(NotFound) {
          return getError;
        }
      } else {
        assert Complete(k, old(client.store), CleanupGetDeployment(workload), client.ticks, old(client.calls))
            == Complete(k, client.store, CleanupDeleteDeployment(workload), client.ticks, client.calls);
        error := client.DeleteDeployment(deployName, k);
        if error.Some? && error != Some(NotFound) {
          return;
        }
      }
      error := None;
    }

    method DeleteOwnedService(k: Key, workload: Workload) returns (error: Option<ApiError>)
      modifies client
      ensures Complete(k, old(client.store), CleanupGetService(workload), client.ticks, old(client.calls))
           == if error.None? then Complete(k, client.store, RemoveFinalizer(workload), client.ticks, client.calls)
              else (client.store, Errored(error.value), client.calls)
    {
      var svcName := Key(k.namespace, k.name + "-svc");
      PutSame(client.Served(), k);
      var svc, getError := client.GetService(svcName, k);
      if getError.Some? {
        if getError != Some(NotFound) {
          return getError;
        }
      } else {
        assert Complete(k, old(client.store), CleanupGetService(workload), client.ticks, old(client.calls))
            == Complete(k, client.store, CleanupDeleteService(workload), client.ticks, client.calls);
        error := client.DeleteService(svcName, k);
        if error.Some? && error != Some(NotFound) {
          return;
        }
      }
      error := None;
    }

    /** `updateStatus`: one status write. */
    method SendStatus(k: Key, workload: Workload, phase: Phase, podName: string, message: Message)
      returns (result: PassResult)
      modifies client
      ensures Complete(k, old(client.store), WriteStatus(workload, Status(phase, podName, message)), client.ticks,
                       old(client.calls))
           == (client.store, result, client.calls)
    {
      var updated := workload.(status := Status(phase, podName, message));
      var error := client.StatusUpdate(k, updated);
      result := if error.Some? then RetryLater(error.value) else Finished;
    }
  }

  // ----- passes are runs

  /** Every pass, whatever befalls its calls, is a run of the cluster of module Controller, and makes at most
      six calls; so what holds of all runs holds of `Reconcile`. */
  lemma {:induction false} CompleteIsRun(g: State, k: Key, ticks: nat -> Tick, at: nat) returns (events: seq<Event>)
    ensures var (s, result, next) := Complete(k, g.store, PcOf(g, k), ticks, at);
            && Run(g, events).store == s && PcOf(Run(g, events), k) == Idle(result)
            && next <= at + Rank(PcOf(g, k))
    decreases Rank(PcOf(g, k))
  {
    if PcOf(g, k).Idle? {
      events := [];
    } else {
      var others := InterfereIsRun(g, k, ticks(at).changes);
      var h := Run(g, others);
      var e := Event(k, Proceed(ticks(at).fault));
      Projection(h, e);
      CallDescends(k, ViewOf(h.store, k), PcOf(h, k), ticks(at).fault);
      var rest := CompleteIsRun(Step(h, e), k, ticks, at + 1);
      events := others + [e] + rest;
      assert (others + [e])[..|others + [e]| - 1] == others;
      RunAppend(g, others + [e], rest);
    }
  }

  /** A pass started in any reachable state leaves no orphan behind, whatever befalls its calls. */
  lemma ReconcileIsSafe(g: State, events: seq<Event>, k: Key, ticks: nat -> Tick, at: nat, j: Key)
    requires ControllerSafety.Initial(g) && PcOf(Run(g, events), k).Idle?
    ensures ControllerSafety.NoOrphans(
              ViewOf(Complete(k, Run(g, events).store, Controller.GetWorkload, ticks, at).0, j))
  {
    var h := Run(g, events);
    var started := Step(h, Event(k, Begin));
    Projection(h, Event(k, Begin));
    PutSame(h.store, k);
    var rest := CompleteIsRun(started, k, ticks, at);
    ControllerSafety.InitialInv(g);
    ControllerSafety.RunKeepsInv(g, events);
    ControllerSafety.StepKeepsInv(h, Event(k, Begin));
    ControllerSafety.RunKeepsInv(started, rest);
    assert ControllerSafety.Inv(j, ViewOf(Run(started, rest).store, j), PcOf(Run(started, rest), j));
  }

  /** With no interference and no faults a pass is the clean pass of module ControllerProgress, so `Reconcile`
      converges and drains as shown there. */
  lemma {:induction false} QuietPassIsClean(k: Key, s: Store, pc: Pc, ticks: nat -> Tick, at: nat)
    requires forall n: nat :: ticks(n) == Tick([], NoFault)
    ensures ViewOf(Complete(k, s, pc, ticks, at).0, k) == ControllerProgress.FinishPass(k, ViewOf(s, k), pc)
    decreases Rank(pc)
  {
    if !pc.Idle? {
      var (v, pc') := Call(k, ViewOf(s, k), pc, NoFault);
      CallDescends(k, ViewOf(s, k), pc, NoFault);
      PutView(s, k, v, k);
      QuietPassIsClean(k, Put(s, k, v), pc', ticks, at + 1);
    }
  }

  lemma {:induction false} InterfereIsRun(g: State, k: Key, changes: seq<(Key, Change)>) returns (events: seq<Event>)
    ensures Run(g, events).store == Interfere(g.store, changes)
    ensures PcOf(Run(g, events), k) == PcOf(g, k)
    decreases changes
  {
    if changes == [] {
      events := [];
    } else {
      var (j, c) := changes[0];
      var e := Event(j, Environment(c));
      var rest := InterfereIsRun(Step(g, e), k, changes[1..]);
      events := [e] + rest;
      assert Run(g, [e]) == Step(g, e) by {
        assert [e][..0] == [];
      }
      RunAppend(g, [e], rest);
    }
  }
}
