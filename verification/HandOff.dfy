/** From the operator to the server: what the pod template hands over through its environment. */
module HandOff {
  import opened Options
  import opened Cluster
  import opened Controller
  import opened ControllerSafety
  import opened ControllerProvenance
  import opened InferenceServer
  import Decimal

  function Getenv(env: map<string, string>, name: string, default: string): string {
    if name in env then env[name] else default
  }

  /** `int(os.environ.get("TOKEN_QUOTA", "100000"))` */
  function ServerQuota(env: map<string, string>): Option<int> {
    Decimal.ParseInt(Getenv(env, "TOKEN_QUOTA", "100000"))
  }

  function Lower(s: string): string {
    if s == "" then "" else [if 'A' <= s[0] <= 'Z' then (s[0] as int + 32) as char else s[0]] + Lower(s[1..])
  }

  /** `os.environ.get("USE_GPU", "true").lower() == "true"` */
  predicate UseGpu(env: map<string, string>) {
    Lower(Getenv(env, "USE_GPU", "true")) == "true"
  }

  function IgnoringCase(lower: char): set<char>
    requires 'a' <= lower <= 'z'
  {
    {lower, (lower as int - 32) as char}
  }

  /** Only `true`, in any mixture of cases, turns the GPU on; a missing variable does as well. */
  lemma UseGpuExactly(env: map<string, string>)
    ensures var s := Getenv(env, "USE_GPU", "true");
            UseGpu(env) <==> |s| == 4 && s[0] in IgnoringCase('t') && s[1] in IgnoringCase('r')
                             && s[2] in IgnoringCase('u') && s[3] in IgnoringCase('e')
    ensures "USE_GPU" !in env ==> UseGpu(env)
  {
    LowerPointwise(Getenv(env, "USE_GPU", "true"));
    LowerTrue();
  }

  lemma {:induction false} LowerPointwise(s: string)
    ensures |Lower(s)| == |s|
    ensures forall i, c :: 0 <= i < |s| && 'a' <= c <= 'z' ==> (Lower(s)[i] == c <==> s[i] in IgnoringCase(c))
  {
    if s != "" {
      LowerPointwise(s[1..]);
    }
  }

  /** Without the variables the server has a quota of 100000 and a cache of 4. */
  lemma Defaults(env: map<string, string>)
    ensures "TOKEN_QUOTA" !in env ==> ServerQuota(env) == Some(100000)
    ensures "KV_CACHE_GB" !in env ==> ServerKvCache(env) == Some(4)
  {
    assert Decimal.Print(4) == "4";
    Decimal.ParsePrint(4);
    assert Decimal.PrintNat(1) == "1";
    assert Decimal.PrintNat(10) == "10";
    assert Decimal.PrintNat(100) == "100";
    assert Decimal.PrintNat(1000) == "1000";
    assert Decimal.PrintNat(10000) == "10000";
    assert Decimal.Print(100000) == "100000";
    Decimal.ParsePrint(100000);
  }

  lemma LowerTrue()
    ensures Lower("true") == "true" && Lower("false") != "true"
  {
    assert Lower("true") == ['t'] + (['r'] + (['u'] + ['e']));
    assert Lower("false")[0] == 'f';
  }

  /** `int(os.environ.get("KV_CACHE_GB", "4"))` */
  function ServerKvCache(env: map<string, string>): Option<int> {
    Decimal.ParseInt(Getenv(env, "KV_CACHE_GB", "4"))
  }

  /** `os.environ.get("MODEL_PATH", "")`, in the server and in the preloader */
  function ModelPath(env: map<string, string>): string {
    Getenv(env, "MODEL_PATH", "")
  }

  /** The server reads back the numbers and the model of the spec, whatever they are. */
  lemma QuotaSurvives(k: Key, spec: Spec)
    ensures var env := Template(k, spec).env;
            && ServerQuota(env) == Some(spec.tokenQuota)
            && ServerKvCache(env) == Some(spec.kvCacheGB)
            && ModelPath(env) == spec.modelName
  {
    var env := Template(k, spec).env;
    assert env["TOKEN_QUOTA"] == Decimal.Print(spec.tokenQuota);
    assert env["KV_CACHE_GB"] == Decimal.Print(spec.kvCacheGB);
    assert env["MODEL_PATH"] == spec.modelName;
    Decimal.ParsePrint(spec.tokenQuota);
    Decimal.ParsePrint(spec.kvCacheGB);
  }

  /** The server asks for the GPU exactly when the pod was given one, unless the GPU count is negative, which
      the validator refuses. */
  lemma GpuAgreement(k: Key, spec: Spec)
    ensures (UseGpu(Template(k, spec).env) <==> "nvidia.com/gpu" in Template(k, spec).gpuLimits) <==> spec.gpu >= 0
    ensures UseGpu(Template(k, spec).env) <==> spec.gpu != 0
  {
    LowerTrue();
    assert Template(k, spec).env["USE_GPU"] == if spec.gpu == 0 then "false" else "true";
  }

  /** The partition mode does not reach the traces: they read a variable the operator does not set. */
  lemma PartitionModeIsNotTraced(k: Key, spec: Spec)
    ensures Template(k, spec).env["GPU_PARTITION_MODE"] == spec.partitionMode
    ensures Getenv(Template(k, spec).env, "PARTITION_MODE", "unknown") == "unknown"
  {
  }

  // ----- what a Deployment asks for

  /** The number of GPUs in the limits or requests of a container; None when it is not a number. */
  function Gpus(resources: map<string, string>): Option<int> {
    if "nvidia.com/gpu" in resources then Decimal.ParseInt(resources["nvidia.com/gpu"]) else Some(0)
  }

  /** A pod of this template gets what the spec asks for. */
  predicate Carries(k: Key, t: PodTemplate, spec: Spec) {
    && Getenv(t.labels, "app", "") == "aperture-inference"
    && Getenv(t.labels, "aperture.ai/workload", "") == k.name
    && ModelPath(t.env) == spec.modelName
    && ServerQuota(t.env) == Some(spec.tokenQuota)
    && ServerKvCache(t.env) == Some(spec.kvCacheGB)
    && Getenv(t.env, "GPU_PARTITION_MODE", "") == spec.partitionMode
    && Getenv(t.labels, "aperture.ai/partition-mode", "") == spec.partitionMode
    && (UseGpu(t.env) <==> spec.gpu != 0)
    && t.gpuLimits == t.gpuRequests
    && ("nvidia.com/gpu" in t.gpuLimits <==> spec.gpu > 0)
    && (spec.gpu >= 0 ==> Gpus(t.gpuLimits) == Some(spec.gpu))
  }

  lemma TemplateCarries(k: Key, spec: Spec)
    ensures Carries(k, Template(k, spec), spec)
  {
    QuotaSurvives(k, spec);
    GpuAgreement(k, spec);
    Decimal.ParsePrint(spec.gpu);
  }

  /** Every Deployment in a reachable cluster asks for the GPUs, the model, the quota, the cache and the partition mode of
      the spec that its workload had at an identified fetch. */
  lemma DeployedSpec(g: Controller.State, events: seq<Controller.Event>, k: Key) returns (i: nat, w: Workload)
    requires ControllerSafety.Initial(g)
    requires ViewOf(Controller.Run(g, events).store, k).deployment.Some?
    ensures var v := ViewOf(Controller.Run(g, events).store, k);
            && FetchedAt(g, events, i, k, w)
            && v.workload.Some? && v.workload.value.uid == w.uid
            && Carries(k, v.deployment.value.template, w.spec)
            && Gpus(v.deployment.value.template.gpuLimits) == Some(w.spec.gpu)
  {
    i, w := DeploymentFromFetch(g, events, k);
    TemplateCarries(k, w.spec);
  }

  // ----- the deployed quota and the quota of the spec

  /** Every Deployment in a reachable cluster hands its server a quota between 1 and 100000, the one its workload
      had at the fetch from which it was built. It agrees with the quota now in the spec exactly when the last edit
      since that fetch, if any, asked for this quota; in particular when no edit since asked for another one. */
  lemma DeployedQuota(g: Controller.State, events: seq<Controller.Event>, k: Key) returns (i: nat, w: Workload)
    requires ControllerSafety.Initial(g)
    requires ViewOf(Controller.Run(g, events).store, k).deployment.Some?
    ensures var v := ViewOf(Controller.Run(g, events).store, k);
            && FetchedAt(g, events, i, k, w)
            && v.workload.Some? && v.workload.value.uid == w.uid
            && var (quota, stored) := (ServerQuota(v.deployment.value.template.env), v.workload.value.spec.tokenQuota);
            && quota == Some(w.spec.tokenQuota) && 1 <= quota.value <= 100000
            && (quota == Some(stored) <==> LastQuota(g, events, i, k, quota.value) == quota.value)
            && (NoQuotaEdit(events, i, k, quota.value) ==> quota == Some(stored))
  {
    i, w := DeploymentFromFetch(g, events, k);
    QuotaSurvives(k, w.spec);
    InitialInv(g);
    RunKeepsInv(g, events[..i]);
    var h := Controller.Run(g, events[..i]);
    assert Inv(k, ViewOf(h.store, k), PcOf(h, k));
    QuotaFollowsEdits(g, events, i, k, w.uid, w.spec.tokenQuota);
    if NoQuotaEdit(events, i, k, w.spec.tokenQuota) {
      NoEditNoChange(g, events, i, k, w.spec.tokenQuota);
    }
  }

  /** A process started with the quota of such a Deployment, and in fallback mode, keeps its counter within it. */
  lemma DeployedQuotaHolds(g: Controller.State, events: seq<Controller.Event>, k: Key,
                           s: InferenceServer.State, requests: seq<InferenceServer.Event>)
    requires ControllerSafety.Initial(g)
    requires ViewOf(Controller.Run(g, events).store, k).deployment.Some?
    requires InferenceServer.Initial(s) && s.server.fallback
    ensures var quota := ServerQuota(ViewOf(Controller.Run(g, events).store, k).deployment.value.template.env);
            && quota.Some? && 1 <= quota.value <= 100000
            && (s.server.quota == quota.value ==>
                  0 <= InferenceServer.Run(s, requests).server.counter <= quota.value)
  {
    var i, w := DeployedQuota(g, events, k);
    FallbackQuotaBound(s, requests);
  }

  function At(g: Controller.State, events: seq<Controller.Event>, k: Key): (Cluster.View, Pc) {
    var h := Controller.Run(g, events);
    (ViewOf(h.store, k), PcOf(h, k))
  }

  /** One more event for `k` does what the local step says. */
  lemma Then(g: Controller.State, events: seq<Controller.Event>, k: Key, a: Action, v: Cluster.View, pc: Pc)
    returns (longer: seq<Controller.Event>)
    requires At(g, events, k) == (v, pc)
    ensures |longer| == |events| + 1 && longer[..|longer| - 1] == events
    ensures At(g, longer, k) == LocalStep(k, v, pc, a)
  {
    longer := events + [Controller.Event(k, a)];
    assert longer[..|events|] == events;
    Projection(Controller.Run(g, events), Controller.Event(k, a));
  }

  /** The workload before any pass, and after an edit. */
  function Before(spec: Spec): Workload {
    Workload(1, 1, false, {FINALIZER}, spec, Status(Unset, "", NoMessage))
  }

  function Edited(spec: Spec, edited: Spec): Workload {
    Before(spec).(spec := edited, version := 2)
  }

  function Only(k: Key, w: Workload): Controller.State {
    Controller.State(Store(1, map[k := w], map[], map[]), map[])
  }

  lemma OnlyIsInitial(k: Key, spec: Spec)
    requires Accepts(spec)
    ensures ControllerSafety.Initial(Only(k, Before(spec)))
    ensures At(Only(k, Before(spec)), [], k) == (Cluster.View(1, Some(Before(spec)), None, None), Idle(NoPass))
  {
  }

  /** A pass that has fetched the workload and is about to create the Deployment. */
  lemma FetchRun(k: Key, spec: Spec) returns (events: seq<Controller.Event>)
    requires Accepts(spec)
    ensures At(Only(k, Before(spec)), events, k)
         == (Cluster.View(1, Some(Before(spec)), None, None), SendDeployment(Before(spec)))
  {
    OnlyIsInitial(k, spec);
    var w := Before(spec);
    var g, v := Only(k, w), Cluster.View(1, Some(w), None, None);
    events := Then(g, [], k, Action.Begin, v, Idle(NoPass));
    events := Then(g, events, k, Proceed(NoFault), v, GetWorkload);
    events := Then(g, events, k, Proceed(NoFault), v, GetDeployment(w));
    events := Then(g, events, k, Proceed(NoFault), v, SetDeploymentOwner(w));
  }

  /** The agreement fails, and not only for Deployments that existed at the edit: creation is not tied to the
      resource version, so for any two admitted specs with different quotas there is a run in which the stored
      quota is the second one before any Deployment exists, and the Deployment then created hands over the first. */
  lemma EditOvertaken(k: Key, spec: Spec, edited: Spec) returns (g: Controller.State, events: seq<Controller.Event>)
    requires Accepts(spec) && Accepts(edited) && spec.tokenQuota != edited.tokenQuota
    ensures ControllerSafety.Initial(g) && |events| > 0
    ensures var before := At(g, events[..|events| - 1], k).0;
            before.deployment.None? && before.workload.Some? && before.workload.value.spec == edited
    ensures var v := At(g, events, k).0;
            && v.workload.Some? && v.workload.value.spec == edited && v.deployment.Some?
            && ServerQuota(v.deployment.value.template.env) == Some(spec.tokenQuota) != Some(edited.tokenQuota)
  {
    OnlyIsInitial(k, spec);
    g := Only(k, Before(spec));
    var v := Cluster.View(1, Some(Before(spec)), None, None);
    var v' := Cluster.View(2, Some(Edited(spec, edited)), None, None);
    events := FetchRun(k, spec);
    events := Then(g, events, k, Environment(EditWorkload(edited, {FINALIZER})), v, SendDeployment(Before(spec)));
    events := Then(g, events, k, Proceed(NoFault), v', SendDeployment(Before(spec)));
    assert At(g, events, k).0.deployment.value.template == Template(k, spec);
    QuotaSurvives(k, spec);
  }

  // ----- the server in the pod

  /** The process in a pod with this environment; `installed` says whether the image has vLLM. */
  function NewProcess(env: map<string, string>, quota: int, installed: bool): InferenceServer.State {
    InferenceServer.State(Config(ModelPath(env), UseGpu(env), installed), false, Server(quota, false, false, 0), [])
  }

  /** A server in an admitted pod always comes up, in one mode; and over all its lifespans, on any node, it can be
      relied on to keep within the quota of the spec exactly when the workload has no GPUs or vLLM is missing. */
  lemma PodKeepsQuota(k: Key, spec: Spec, installed: bool, cuda: bool, loads: bool)
    requires Accepts(spec)
    ensures var env := Template(k, spec).env;
            && ServerQuota(env) == Some(spec.tokenQuota)
            && var s := NewProcess(env, spec.tokenQuota, installed);
               var h := InferenceServer.Step(s, StartUp(cuda, loads));
            && h.up && h.server.engine != h.server.fallback
            && (h.server.engine <==> spec.gpu > 0 && installed && cuda && loads)
            && ((forall requests :: InferenceServer.Run(s, requests).server.counter <= spec.tokenQuota)
                <==> spec.gpu == 0 || !installed)
  {
    var env := Template(k, spec).env;
    QuotaSurvives(k, spec);
    GpuAgreement(k, spec);
    ProcessKeepsQuota(NewProcess(env, spec.tokenQuota, installed), cuda, loads);
  }
}
