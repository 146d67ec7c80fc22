/** The token-quota protocol of `/generate`: reserve, run, settle. Requests interleave at every point where the
    counter is touched; in fallback mode a request may be cancelled while it sleeps. */
module InferenceServer {
  import opened Numbers
  import opened Options
  import opened Text
  import Ledger
  import Fallback

  /** The globals of the process. */
  datatype Server = Server(quota: int, engine: bool, fallback: bool, counter: int)

  datatype Phase =
    | Queued             // validated, `generate` not entered yet
    | Sleeping           // reserved, at the await of the fallback path
    | Calling            // reserved, about to call the engine
    | Answered(tokens: nat)
    | NotReady           // 503
    | Refused            // 429
    | Failed             // 500
    | Cancelled          // at the await

  datatype Request = Request(prompt: string, maxTokens: nat, phase: Phase)

  /** What the engine does with a call. */
  datatype Outcome = Raises | Empty | Produces(tokens: nat)

  // ----- the segments of `generate`

  function Enter(sv: Server, maxTokens: nat): (Server, Phase) {
    if !sv.engine && !sv.fallback then (sv, NotReady)
    else
      var (counter, ret) := Ledger.Apply(sv.counter, Ledger.Op.TryReserve(maxTokens, sv.quota));
      if !ret.ok then (sv, Refused)
      else (sv.(counter := counter), if sv.fallback then Sleeping else Calling)
  }

  function Adjusted(sv: Server, reserved: nat, actual: nat): Server {
    sv.(counter := Ledger.Apply(sv.counter, Ledger.Adjust(reserved, actual)).0)
  }

  function Resume(sv: Server, prompt: string, maxTokens: nat): (Server, Phase) {
    var tokens := Fallback.Charge(prompt, maxTokens);
    (Adjusted(sv, maxTokens, tokens), Answered(tokens))
  }

  /** Calling an engine that is not loaded raises, inside the `try`. */
  function EngineReply(sv: Server, maxTokens: nat, outcome: Outcome): (Server, Phase) {
    if sv.engine && outcome.Produces? then (Adjusted(sv, maxTokens, outcome.tokens), Answered(outcome.tokens))
    else (Adjusted(sv, maxTokens, 0), Failed)
  }

  // ----- lifespans

  /** `lifespan` up to its yield: None when it raises, else the engine and fallback globals. `loads` says
      whether constructing the engine succeeds. */
  function Startup(modelPath: string, useGpu: bool, cuda: bool, installed: bool, loads: bool,
                   engine: bool, fallback: bool): Option<(bool, bool)>
  {
    if modelPath == "" then None
    else if useGpu && cuda then
      if !installed then Some((engine, true))
      else if loads then Some((true, fallback))
      else Some((false, true))
    else Some((engine, true))
  }

  /** What the process reads once, when the module is loaded: `MODEL_PATH`, `USE_GPU`, and whether vLLM could be
      imported. */
  datatype Config = Config(modelPath: string, useGpu: bool, installed: bool)

  /** Some startup of this process could load an engine. */
  predicate CanLoad(c: Config) {
    c.modelPath != "" && c.useGpu && c.installed
  }

  // ----- runs

  /** `up` holds between the yield of a lifespan and its shutdown. */
  datatype State = State(config: Config, up: bool, server: Server, requests: seq<Request>)

  datatype Event =
    | Arrive(prompt: string, maxTokens: nat)
    | Begin(i: nat)
    | Wake(i: nat)
    | Cancel(i: nat)
    | Reply(i: nat, outcome: Outcome)
    | StartUp(cuda: bool, loads: bool)
    | Shutdown

  predicate InPhase(s: State, i: nat, phase: Phase) {
    i < |s.requests| && s.requests[i].phase == phase
  }

  function Moved(s: State, i: nat, next: (Server, Phase)): State
    requires i < |s.requests|
  {
    s.(server := next.0, requests := s.requests[i := s.requests[i].(phase := next.1)])
  }

  /** A lifespan begins only when none is running; when startup raises there is none. */
  function Started(s: State, cuda: bool, loads: bool): State {
    var c, sv := s.config, s.server;
    var modes := Startup(c.modelPath, c.useGpu, cuda, c.installed, loads, sv.engine, sv.fallback);
    if s.up || modes.None? then s
    else s.(up := true, server := sv.(engine := modes.value.0, fallback := modes.value.1))
  }

  function Stopped(s: State): State {
    if s.up then s.(up := false, server := s.server.(engine := false)) else s
  }

  function Step(s: State, e: Event): State {
    match e
    case Arrive(prompt, maxTokens) =>
      if prompt != "" && 1 <= maxTokens <= 4096 then
        s.(requests := s.requests + [Request(prompt, maxTokens, Queued)])
      else s
    case Begin(i) => if InPhase(s, i, Queued) then Moved(s, i, Enter(s.server, s.requests[i].maxTokens)) else s
    case Wake(i) =>
      if InPhase(s, i, Sleeping) then Moved(s, i, Resume(s.server, s.requests[i].prompt, s.requests[i].maxTokens)) else s
    case Cancel(i) => if InPhase(s, i, Sleeping) then Moved(s, i, (s.server, Cancelled)) else s
    case Reply(i, outcome) =>
      if InPhase(s, i, Calling) then Moved(s, i, EngineReply(s.server, s.requests[i].maxTokens, outcome)) else s
    case StartUp(cuda, loads) => Started(s, cuda, loads)
    case Shutdown => Stopped(s)
  }

  predicate OnRequest(s: State, e: Event) {
    (e.Begin? || e.Wake? || e.Cancel? || e.Reply?) && e.i < |s.requests|
  }

  function Run(s: State, events: seq<Event>): State {
    if events == [] then s else Step(Run(s, events[..|events| - 1]), events[|events| - 1])
  }

  lemma {:induction false} RunAppend(s: State, a: seq<Event>, b: seq<Event>)
    ensures Run(s, a + b) == Run(Run(s, a), b)
  {
    if b == [] {
      assert a + b == a;
    } else {
      var n := |b| - 1;
      assert (a + b)[..|a + b| - 1] == a + b[..n];
      RunAppend(s, a, b[..n]);
    }
  }

  /** Nothing has been served yet, in any configuration and any mode. */
  predicate Initial(s: State) {
    s.requests == [] && s.server.counter == 0
  }

  /** The process has just been started. */
  predicate Fresh(s: State) {
    Initial(s) && !s.up && !s.server.engine && !s.server.fallback
  }

  // ----- accounting

  /** Tokens charged to a request that was answered. */
  function Charged(r: Request): int { if r.phase.Answered? then r.phase.tokens else 0 }

  /** Tokens reserved for a request in flight. */
  function Held(r: Request): int { if r.phase.Sleeping? || r.phase.Calling? then r.maxTokens else 0 }

  /** Tokens whose reservation a cancelled request left behind. */
  function Abandoned(r: Request): int { if r.phase.Cancelled? then r.maxTokens else 0 }

  /** Tokens an answer took beyond its reservation. */
  function Overrun(r: Request): int {
    if r.phase.Answered? && r.phase.tokens > r.maxTokens then r.phase.tokens - r.maxTokens else 0
  }

  /** All three. */
  function Due(r: Request): int { Charged(r) + Held(r) + Abandoned(r) }

  function Max0(n: int): int { if n > 0 then n else 0 }

  function Total(f: Request -> int, rs: seq<Request>): int {
    if rs == [] then 0 else f(rs[0]) + Total(f, rs[1..])
  }

  lemma {:induction false} TotalAppend(f: Request -> int, rs: seq<Request>, r: Request)
    ensures Total(f, rs + [r]) == Total(f, rs) + f(r)
  {
    if rs == [] {
      assert [r][1..] == [];
      assert rs + [r] == [r];
    } else {
      assert (rs + [r])[1..] == rs[1..] + [r];
      TotalAppend(f, rs[1..], r);
    }
  }

  lemma {:induction false} TotalUpdate(f: Request -> int, rs: seq<Request>, i: nat, r: Request)
    requires i < |rs|
    ensures Total(f, rs[i := r]) == Total(f, rs) - f(rs[i]) + f(r)
  {
    if i == 0 {
      assert rs[0 := r][1..] == rs[1..];
    } else {
      assert rs[i := r][1..] == rs[1..][i - 1 := r];
      TotalUpdate(f, rs[1..], i - 1, r);
    }
  }

  lemma {:induction false} TotalZero(f: Request -> int, rs: seq<Request>)
    requires forall i :: 0 <= i < |rs| ==> f(rs[i]) == 0
    ensures Total(f, rs) == 0
  {
    if rs != [] {
      TotalZero(f, rs[1..]);
    }
  }

  lemma {:induction false} TotalNonNegative(f: Request -> int, rs: seq<Request>)
    requires forall i :: 0 <= i < |rs| ==> f(rs[i]) >= 0
    ensures Total(f, rs) >= 0
  {
    if rs != [] {
      TotalNonNegative(f, rs[1..]);
    }
  }

  /** How a total changes in one step. */
  lemma StepTotal(f: Request -> int, s: State, e: Event)
    ensures var s' := Step(s, e);
            Total(f, s'.requests) == Total(f, s.requests)
              + if e.Arrive? && s' != s then f(s'.requests[|s.requests|])
                else if OnRequest(s, e) then f(s'.requests[e.i]) - f(s.requests[e.i])
                else 0
  {
    var s' := Step(s, e);
    if e.Arrive? && s' != s {
      TotalAppend(f, s.requests, s'.requests[|s.requests|]);
    } else if OnRequest(s, e) {
      TotalUpdate(f, s.requests, e.i, s'.requests[e.i]);
      assert s'.requests == s.requests[e.i := s'.requests[e.i]];
    }
  }

  predicate Balanced(s: State) {
    s.server.counter == Total(Charged, s.requests) + Total(Held, s.requests) + Total(Abandoned, s.requests)
  }

  /** A segment that takes request `r` from `sv` to `next` moves the counter by what the request comes to owe, and
      upwards only within the quota or by an overrun. */
  predicate Settles(sv: Server, r: Request, next: (Server, Phase)) {
    var (moved, r') := (next.0.counter - sv.counter, r.(phase := next.1));
    moved == Due(r') - Due(r) && (next.0.counter <= Max0(sv.quota) || moved <= Overrun(r') - Overrun(r))
  }

  lemma EnterSettles(sv: Server, r: Request)
    requires r.phase.Queued?
    ensures Settles(sv, r, Enter(sv, r.maxTokens))
  {
  }

  lemma ResumeSettles(sv: Server, r: Request)
    requires r.phase.Sleeping?
    ensures Settles(sv, r, Resume(sv, r.prompt, r.maxTokens))
  {
  }

  lemma ReplySettles(sv: Server, r: Request, outcome: Outcome)
    requires r.phase.Calling?
    ensures Settles(sv, r, EngineReply(sv, r.maxTokens, outcome))
  {
  }

  lemma StepSettles(s: State, e: Event)
    requires OnRequest(s, e)
    ensures var s' := Step(s, e);
            && |s'.requests| == |s.requests|
            && s'.requests[e.i] == s.requests[e.i].(phase := s'.requests[e.i].phase)
            && Settles(s.server, s.requests[e.i], (s'.server, s'.requests[e.i].phase))
  {
    var r := s.requests[e.i];
    match e {
      case Begin(_) => if r.phase.Queued? { EnterSettles(s.server, r); }
      case Wake(_) => if r.phase.Sleeping? { ResumeSettles(s.server, r); }
      case Reply(_, outcome) => if r.phase.Calling? { ReplySettles(s.server, r, outcome); }
      case Cancel(_) =>
    }
  }

  lemma StepBalances(s: State, e: Event)
    requires Balanced(s)
    ensures Balanced(Step(s, e))
  {
    if OnRequest(s, e) {
      StepSettles(s, e);
    }
    StepTotal(Charged, s, e);
    StepTotal(Held, s, e);
    StepTotal(Abandoned, s, e);
  }

  /** Conservation: in every reachable state the counter is exactly what answered requests were charged, plus
      the reservations in flight, plus those abandoned by cancellation. */
  lemma {:induction false} Conservation(s: State, events: seq<Event>)
    requires Initial(s)
    ensures Balanced(Run(s, events))
  {
    if events != [] {
      Conservation(s, events[..|events| - 1]);
      StepBalances(Run(s, events[..|events| - 1]), events[|events| - 1]);
    }
  }

  /** Nothing reserves: every request has come to an end. */
  predicate AtRest(s: State) {
    forall i :: 0 <= i < |s.requests| ==> !s.requests[i].phase.Sleeping? && !s.requests[i].phase.Calling?
  }

  lemma {:induction false} RequestsAreValid(s: State, events: seq<Event>)
    requires Initial(s)
    ensures forall i :: 0 <= i < |Run(s, events).requests| ==> Run(s, events).requests[i].maxTokens >= 1
  {
    if events != [] {
      RequestsAreValid(s, events[..|events| - 1]);
    }
  }

  lemma {:induction false} TotalPositive(f: Request -> int, rs: seq<Request>, i: nat)
    requires forall j :: 0 <= j < |rs| ==> f(rs[j]) >= 0
    requires i < |rs| && f(rs[i]) > 0
    ensures Total(f, rs) > 0
  {
    if i == 0 {
      TotalNonNegative(f, rs[1..]);
    } else {
      TotalPositive(f, rs[1..], i - 1);
    }
  }

  /** At rest the counter is the sum of the tokens returned exactly when no request was cancelled: every other
      exit has settled its reservation, a cancelled one never does. */
  lemma CounterAtRest(s: State, events: seq<Event>)
    requires Initial(s) && AtRest(Run(s, events))
    ensures var h := Run(s, events);
            h.server.counter == Total(Charged, h.requests)
            <==> forall i :: 0 <= i < |h.requests| ==> !h.requests[i].phase.Cancelled?
  {
    var h := Run(s, events);
    Conservation(s, events);
    RequestsAreValid(s, events);
    TotalZero(Held, h.requests);
    if forall i :: 0 <= i < |h.requests| ==> !h.requests[i].phase.Cancelled? {
      TotalZero(Abandoned, h.requests);
    } else {
      var i: nat :| i < |h.requests| && h.requests[i].phase.Cancelled?;
      TotalPositive(Abandoned, h.requests, i);
    }
  }

  lemma CounterNonNegative(s: State, events: seq<Event>)
    requires Initial(s)
    ensures Run(s, events).server.counter >= 0
  {
    Conservation(s, events);
    TotalNonNegative(Charged, Run(s, events).requests);
    TotalNonNegative(Held, Run(s, events).requests);
    TotalNonNegative(Abandoned, Run(s, events).requests);
  }

  lemma BoundStep(s: State, e: Event)
    requires s.server.counter <= Max0(s.server.quota) + Total(Overrun, s.requests)
    ensures Step(s, e).server.quota == s.server.quota
    ensures Step(s, e).server.counter <= Max0(s.server.quota) + Total(Overrun, Step(s, e).requests)
  {
    StepTotal(Overrun, s, e);
    TotalNonNegative(Overrun, s.requests);
    TotalNonNegative(Overrun, Step(s, e).requests);
    if OnRequest(s, e) {
      StepSettles(s, e);
    }
  }

  /** Quota bound: the counter is never negative and exceeds the quota by no more than what answers took
      beyond their reservations. */
  lemma {:induction false} QuotaBound(s: State, events: seq<Event>)
    requires Initial(s)
    ensures var h := Run(s, events);
            && h.server.quota == s.server.quota
            && 0 <= h.server.counter <= Max0(s.server.quota) + Total(Overrun, h.requests)
  {
    CounterNonNegative(s, events);
    if events != [] {
      QuotaBound(s, events[..|events| - 1]);
      BoundStep(Run(s, events[..|events| - 1]), events[|events| - 1]);
    }
  }

  // ----- modes, and the engine call

  /** After a startup without a loaded engine, exactly one of the two modes holds, except when a lifespan that
      ran in fallback mode is followed by one that loads the engine: the fallback flag is never taken back. */
  lemma StartupDichotomy(modelPath: string, useGpu: bool, cuda: bool, installed: bool, loads: bool, fallback: bool)
    requires modelPath != ""
    ensures var modes := Startup(modelPath, useGpu, cuda, installed, loads, false, fallback);
            && modes.Some?
            && (modes.value.0 != modes.value.1 <==> !(fallback && useGpu && cuda && installed && loads))
  {
  }

  predicate OneLifespan(events: seq<Event>) {
    forall i :: 0 <= i < |events| ==> !events[i].StartUp?
  }

  predicate NoShutdown(events: seq<Event>) {
    forall i :: 0 <= i < |events| ==> !events[i].Shutdown?
  }

  /** The fallback flag is never taken back, and an engine comes only from a startup that can load one. Within a
      lifespan the modes stay as startup left them, until shutdown unloads the engine. */
  lemma {:induction false} ModesAreStable(s: State, events: seq<Event>)
    ensures var h := Run(s, events);
            && h.config == s.config
            && (s.server.fallback ==> h.server.fallback)
            && (h.server.engine ==> s.server.engine || CanLoad(s.config))
            && (OneLifespan(events) ==>
                  && h.server.fallback == s.server.fallback
                  && (h.server.engine ==> s.server.engine)
                  && (NoShutdown(events) ==> h.server.engine == s.server.engine))
  {
    if events != [] {
      ModesAreStable(s, events[..|events| - 1]);
    }
  }

  /** Over any number of lifespans of one process: while one is running there is a mode to serve in, and between
      them no engine. */
  lemma {:induction false} LifespanModes(s: State, events: seq<Event>)
    requires Fresh(s)
    ensures var h := Run(s, events);
            if h.up then h.server.engine || h.server.fallback else !h.server.engine
  {
    if events != [] {
      LifespanModes(s, events[..|events| - 1]);
    }
  }

  /** Without a model path every startup raises: the process never comes up, and every request gets 503. */
  lemma {:induction false} NoModelNoService(s: State, events: seq<Event>)
    requires Fresh(s) && s.config.modelPath == ""
    ensures var h := Run(s, events);
            && !h.up && h.server == s.server
            && forall i :: 0 <= i < |h.requests| ==> h.requests[i].phase == Queued || h.requests[i].phase == NotReady
  {
    if events != [] {
      ModesAreStable(s, events[..|events| - 1]);
      NoModelNoService(s, events[..|events| - 1]);
    }
  }

  /** Both modes at once do occur, in every process that can load an engine and in no other: a startup that fails
      to load it sets the flag, and a later one that succeeds leaves it set. */
  lemma BothModes(s: State)
    requires Fresh(s)
    ensures (exists events :: Run(s, events).server.engine && Run(s, events).server.fallback) <==> CanLoad(s.config)
  {
    if CanLoad(s.config) {
      var e1, e2, e3 := StartUp(true, false), Shutdown, StartUp(true, true);
      RunThree(s, e1, e2, e3);
      assert Run(s, [e1, e2, e3]).server.engine && Run(s, [e1, e2, e3]).server.fallback;
    } else {
      forall events ensures !Run(s, events).server.engine {
        ModesAreStable(s, events);
      }
    }
  }

  lemma RunThree(s: State, e1: Event, e2: Event, e3: Event)
    ensures Run(s, [e1]) == Step(s, e1)
    ensures Run(s, [e1, e2]) == Step(Step(s, e1), e2)
    ensures Run(s, [e1, e2, e3]) == Step(Step(Step(s, e1), e2), e3)
  {
    assert [e1][..0] == [] && [e1, e2][..1] == [e1] && [e1, e2, e3][..2] == [e1, e2];
  }

  /** The event loop does not run anything else between the reservation and the engine's reply, for there is no
      await in between. */
  predicate LoopAllows(s: State, e: Event) {
    forall i :: 0 <= i < |s.requests| && s.requests[i].phase.Calling? ==> e.Reply? && e.i == i
  }

  predicate LoopSchedule(s: State, events: seq<Event>) {
    forall n :: 0 <= n < |events| ==> LoopAllows(Run(s, events[..n]), events[n])
  }

  predicate EngineAtCalls(s: State) {
    forall i :: 0 <= i < |s.requests| && s.requests[i].phase.Calling? ==> s.server.engine && !s.server.fallback
  }

  lemma AllowedStep(s: State, e: Event)
    requires LoopAllows(s, e)
    ensures EngineAtCalls(Step(s, e))
  {
  }

  /** Every engine call finds an engine: on the event loop, whenever a request is at the call, the engine is
      loaded and fallback mode is off, also when shutdown happens in the course of the run. */
  lemma CallsFindEngine(s: State, events: seq<Event>)
    requires Initial(s) && LoopSchedule(s, events)
    ensures EngineAtCalls(Run(s, events))
  {
    if events != [] {
      var n := |events| - 1;
      AllowedStep(Run(s, events[..n]), events[n]);
    }
  }

  // ----- the fate of a request

  predicate NoneCalling(s: State) {
    forall i :: 0 <= i < |s.requests| ==> !s.requests[i].phase.Calling?
  }

  lemma LoopThree(s: State, e1: Event, e2: Event, e3: Event)
    requires LoopAllows(s, e1) && LoopAllows(Step(s, e1), e2) && LoopAllows(Step(Step(s, e1), e2), e3)
    ensures LoopSchedule(s, [e1, e2, e3])
  {
    RunThree(s, e1, e2, e3);
    assert [e1, e2, e3][..0] == [] && [e1, e2, e3][..1] == [e1] && [e1, e2, e3][..2] == [e1, e2];
  }

  predicate ValidRequest(prompt: string, maxTokens: nat) {
    prompt != "" && 1 <= maxTokens <= 4096
  }

  /** A request, number `i`, that nothing interferes with. */
  function Undisturbed(sv: Server, i: nat, prompt: string, maxTokens: nat, outcome: Outcome): seq<Event> {
    [Arrive(prompt, maxTokens), Begin(i), if sv.fallback then Wake(i) else Reply(i, outcome)]
  }

  /** The answer to a valid request: 503 without a mode, else 429 when it does not fit what is left of the quota, else in
      fallback mode a token for each word, up to the limit, else what the engine makes of it. */
  function Fate(sv: Server, prompt: string, maxTokens: nat, outcome: Outcome): Phase {
    if !sv.engine && !sv.fallback then NotReady
    else if sv.counter + maxTokens > sv.quota then Refused
    else if sv.fallback then Answered(Min(maxTokens, 16 + |Words(prompt)|))
    else if outcome.Produces? then Answered(outcome.tokens)
    else Failed
  }

  /** `generate` as far as its first await or engine call. */
  lemma EnterDecides(sv: Server, maxTokens: nat)
    ensures var (sv', phase) := Enter(sv, maxTokens);
            && (phase == NotReady <==> !sv.engine && !sv.fallback)
            && (phase == Refused <==> (sv.engine || sv.fallback) && maxTokens > sv.quota - sv.counter)
            && (phase == Sleeping <==> sv.fallback && maxTokens <= sv.quota - sv.counter)
            && (phase == Calling <==> sv.engine && !sv.fallback && maxTokens <= sv.quota - sv.counter)
            && sv' == sv.(counter := sv.counter + if phase == Sleeping || phase == Calling then maxTokens else 0)
  {
  }

  /** `s` with another server and one more request. */
  function With(s: State, sv: Server, r: Request): State {
    s.(server := sv, requests := s.requests + [r])
  }

  lemma LastMoved(s: State, sv: Server, r: Request, next: (Server, Phase))
    ensures Moved(With(s, sv, r), |s.requests|, next) == With(s, next.0, r.(phase := next.1))
  {
    var r' := r.(phase := next.1);
    assert (s.requests + [r])[|s.requests| := r'] == s.requests + [r'];
  }

  lemma BeginStep(s: State, r: Request)
    requires r.phase.Queued?
    ensures var (sv, phase) := Enter(s.server, r.maxTokens);
            Step(With(s, s.server, r), Begin(|s.requests|)) == With(s, sv, r.(phase := phase))
  {
    LastMoved(s, s.server, r, Enter(s.server, r.maxTokens));
  }

  lemma LastStep(s: State, r: Request, outcome: Outcome)
    requires r.phase == Enter(s.server, r.maxTokens).1
    ensures var (sv, i) := (s.server, |s.requests|);
            var phase := Fate(sv, r.prompt, r.maxTokens, outcome);
            Step(With(s, Enter(sv, r.maxTokens).0, r), if sv.fallback then Wake(i) else Reply(i, outcome))
            == With(s, sv.(counter := sv.counter + if phase.Answered? then phase.tokens else 0), r.(phase := phase))
  {
    EnterDecides(s.server, r.maxTokens);
    var sv := Enter(s.server, r.maxTokens).0;
    if s.server.fallback {
      LastMoved(s, sv, r, Resume(sv, r.prompt, r.maxTokens));
    } else {
      LastMoved(s, sv, r, EngineReply(sv, r.maxTokens, outcome));
    }
  }

  /** From any state, reachable or not, and with any other requests in flight, a valid request gets exactly that answer,
      and the counter moves by exactly the tokens of the answer; an invalid one leaves no trace. */
  lemma RequestsGetTheirFate(s: State, prompt: string, maxTokens: nat, outcome: Outcome)
    ensures var h := Run(s, Undisturbed(s.server, |s.requests|, prompt, maxTokens, outcome));
            if !ValidRequest(prompt, maxTokens) then h == s
            else
              var phase := Fate(s.server, prompt, maxTokens, outcome);
              h == With(s, s.server.(counter := s.server.counter + if phase.Answered? then phase.tokens else 0),
                        Request(prompt, maxTokens, phase))
  {
    var events := Undisturbed(s.server, |s.requests|, prompt, maxTokens, outcome);
    RunThree(s, events[0], events[1], events[2]);
    if ValidRequest(prompt, maxTokens) {
      var r := Request(prompt, maxTokens, Queued);
      BeginStep(s, r);
      LastStep(s, r.(phase := Enter(s.server, maxTokens).1), outcome);
    }
  }

  /** The event loop allows it. */
  lemma UndisturbedIsAllowed(s: State, prompt: string, maxTokens: nat, outcome: Outcome)
    requires NoneCalling(s)
    ensures LoopSchedule(s, Undisturbed(s.server, |s.requests|, prompt, maxTokens, outcome))
  {
    var events := Undisturbed(s.server, |s.requests|, prompt, maxTokens, outcome);
    if ValidRequest(prompt, maxTokens) {
      BeginStep(s, Request(prompt, maxTokens, Queued));
      EnterDecides(s.server, maxTokens);
    }
    LoopThree(s, events[0], events[1], events[2]);
  }

  /** One more token asked of an engine that returns `tokens`. */
  lemma EngineServes(s: State, prompt: string, tokens: nat) returns (events: seq<Event>)
    requires s.server.engine && !s.server.fallback && s.server.counter < s.server.quota && prompt != "" && NoneCalling(s)
    ensures LoopSchedule(s, events) && OneLifespan(events)
    ensures Run(s, events) == With(s, s.server.(counter := s.server.counter + tokens), Request(prompt, 1, Answered(tokens)))
  {
    events := Undisturbed(s.server, |s.requests|, prompt, 1, Produces(tokens));
    RequestsGetTheirFate(s, prompt, 1, Produces(tokens));
    UndisturbedIsAllowed(s, prompt, 1, Produces(tokens));
  }

  /** A reply is an answer exactly when the engine is there and returns something; otherwise it is a failure, and the
      reservation is given back. */
  lemma ReplyDecides(sv: Server, maxTokens: nat, outcome: Outcome)
    ensures var (sv', phase) := EngineReply(sv, maxTokens, outcome);
            && (phase.Answered? <==> sv.engine && outcome.Produces?)
            && (phase.Answered? ==> outcome == Produces(phase.tokens))
            && (!phase.Answered? ==> phase == Failed)
            && sv' == sv.(counter := sv.counter - maxTokens + if phase.Answered? then phase.tokens else 0)
  {
  }

  /** A request cancelled while it sleeps leaves its whole reservation in the counter, though nothing is returned. */
  lemma CancellationKeepsReservation(s: State, prompt: string, maxTokens: nat)
    requires ValidRequest(prompt, maxTokens) && s.server.fallback && maxTokens <= s.server.quota - s.server.counter
    ensures Run(s, [Arrive(prompt, maxTokens), Begin(|s.requests|), Cancel(|s.requests|)])
         == With(s, s.server.(counter := s.server.counter + maxTokens), Request(prompt, maxTokens, Cancelled))
  {
    var i := |s.requests|;
    var r := Request(prompt, maxTokens, Queued);
    RunThree(s, Arrive(prompt, maxTokens), Begin(i), Cancel(i));
    BeginStep(s, r);
    EnterDecides(s.server, maxTokens);
    var sv := Enter(s.server, maxTokens).0;
    LastMoved(s, sv, r.(phase := Sleeping), (sv, Cancelled));
  }

  // ----- when the counter stays within the quota

  predicate WithinQuota(s: State) {
    s.server.counter <= Max0(s.server.quota)
  }

  /** The request is valid, not at the engine, and has taken no more than its reservation. */
  predicate Mild(r: Request) {
    r.maxTokens >= 1 && !r.phase.Calling? && Overrun(r) == 0
  }

  /** Fallback mode is on, or there is no engine and none will come, or the quota admits nothing. */
  predicate Toothless(sv: Server, engineMayCome: bool) {
    sv.fallback || (!sv.engine && !engineMayCome) || (sv.quota < 1 && sv.counter == 0)
  }

  predicate Harmless(s: State, engineMayCome: bool) {
    && (forall i :: 0 <= i < |s.requests| ==> Mild(s.requests[i]))
    && Toothless(s.server, engineMayCome)
    && (s.server.fallback || forall i :: 0 <= i < |s.requests| ==> !s.requests[i].phase.Sleeping?)
  }

  lemma HarmlessMove(s: State, e: Event, engineMayCome: bool)
    requires OnRequest(s, e) && Mild(s.requests[e.i]) && Toothless(s.server, engineMayCome)
    requires !s.server.fallback ==> !s.requests[e.i].phase.Sleeping?
    ensures var s' := Step(s, e);
            && s'.requests == s.requests[e.i := s'.requests[e.i]] && Mild(s'.requests[e.i])
            && Toothless(s'.server, engineMayCome) && s'.server.fallback == s.server.fallback
            && (!s.server.fallback ==> !s'.requests[e.i].phase.Sleeping?)
  {
  }

  lemma HarmlessStep(s: State, e: Event, engineMayCome: bool)
    requires Harmless(s, engineMayCome) && (e.StartUp? && CanLoad(s.config) ==> engineMayCome)
    ensures Harmless(Step(s, e), engineMayCome)
  {
    if OnRequest(s, e) {
      HarmlessMove(s, e, engineMayCome);
    }
  }

  lemma {:induction false} HarmlessRun(s: State, events: seq<Event>, engineMayCome: bool)
    requires Initial(s) && Harmless(s, engineMayCome)
    requires CanLoad(s.config) && !OneLifespan(events) ==> engineMayCome
    ensures Harmless(Run(s, events), engineMayCome)
  {
    if events != [] {
      var before := events[..|events| - 1];
      HarmlessRun(s, before, engineMayCome);
      ModesAreStable(s, before);
      HarmlessStep(Run(s, before), events[|events| - 1], engineMayCome);
    }
  }

  lemma HarmlessIsWithinQuota(s: State, events: seq<Event>, engineMayCome: bool)
    requires Initial(s) && Harmless(s, engineMayCome)
    requires CanLoad(s.config) && !OneLifespan(events) ==> engineMayCome
    ensures WithinQuota(Run(s, events))
  {
    HarmlessRun(s, events, engineMayCome);
    TotalZero(Overrun, Run(s, events).requests);
    QuotaBound(s, events);
  }

  /** In fallback mode no request overruns, so the quota itself is the bound, in this lifespan and all later ones. */
  lemma FallbackQuotaBound(s: State, events: seq<Event>)
    requires Initial(s) && s.server.fallback
    ensures 0 <= Run(s, events).server.counter <= Max0(s.server.quota)
  {
    HarmlessIsWithinQuota(s, events, true);
    QuotaBound(s, events);
  }

  lemma LoopAppend(s: State, a: seq<Event>, b: seq<Event>)
    requires LoopSchedule(s, a) && LoopSchedule(Run(s, a), b)
    ensures LoopSchedule(s, a + b)
  {
    forall n | 0 <= n < |a + b| ensures LoopAllows(Run(s, (a + b)[..n]), (a + b)[n]) {
      if n < |a| {
        assert (a + b)[..n] == a[..n];
      } else {
        assert (a + b)[..n] == a + b[..n - |a|];
        RunAppend(s, a, b[..n - |a|]);
      }
    }
  }

  /** `n` requests for a token each, answered with a token each, use up `n` tokens. */
  lemma {:induction false} Fill(s: State, prompt: string, n: nat) returns (events: seq<Event>)
    requires Initial(s) && s.server.engine && !s.server.fallback && n <= s.server.quota && prompt != ""
    ensures LoopSchedule(s, events) && OneLifespan(events)
    ensures var h := Run(s, events);
            h.server == s.server.(counter := n) && NoneCalling(h) && Total(Overrun, h.requests) == 0
  {
    events := [];
    if n > 0 {
      var front := Fill(s, prompt, n - 1);
      var h := Run(s, front);
      var last := EngineServes(h, prompt, 1);
      LoopAppend(s, front, last);
      RunAppend(s, front, last);
      TotalAppend(Overrun, h.requests, Request(prompt, 1, Answered(1)));
      events := front + last;
    }
  }

  /** The bound is met, for every quota and every overrun: with an engine there is a run within one lifespan, one
      that the event loop allows, in which the counter ends as far over the quota as the answers overran. */
  lemma BoundIsTight(s: State, prompt: string, extra: nat) returns (events: seq<Event>)
    requires Initial(s) && s.server.engine && !s.server.fallback && s.server.quota >= 1 && prompt != ""
    ensures LoopSchedule(s, events) && OneLifespan(events)
    ensures Run(s, events).server.counter == s.server.quota + extra
    ensures Total(Overrun, Run(s, events).requests) == extra
  {
    var front := Fill(s, prompt, s.server.quota - 1);
    var h := Run(s, front);
    var last := EngineServes(h, prompt, 1 + extra);
    LoopAppend(s, front, last);
    RunAppend(s, front, last);
    TotalAppend(Overrun, h.requests, Request(prompt, 1, Answered(1 + extra)));
    events := front + last;
  }

  /** Within one lifespan the counter can be relied on to stay within the quota exactly when fallback mode is on,
      no engine is loaded, or the quota admits nothing; on the event loop just as under any interleaving. */
  lemma QuotaHoldsInLifespan(s: State)
    requires Initial(s)
    ensures (forall events :: OneLifespan(events) ==> WithinQuota(Run(s, events)))
            <==> s.server.fallback || !s.server.engine || s.server.quota < 1
    ensures (forall events :: OneLifespan(events) && LoopSchedule(s, events) ==> WithinQuota(Run(s, events)))
            <==> s.server.fallback || !s.server.engine || s.server.quota < 1
  {
    if s.server.fallback || !s.server.engine || s.server.quota < 1 {
      forall events | OneLifespan(events) ensures WithinQuota(Run(s, events)) {
        HarmlessIsWithinQuota(s, events, false);
      }
    } else {
      var events := BoundIsTight(s, "p", 1);
      QuotaBound(s, events);
      assert !WithinQuota(Run(s, events));
    }
  }

  lemma LoadEngine(s: State) returns (events: seq<Event>)
    requires Initial(s) && !s.server.fallback && (s.server.engine || CanLoad(s.config))
    ensures LoopSchedule(s, events) && Initial(Run(s, events))
    ensures Run(s, events).server == s.server.(engine := true)
  {
    var stop, start := Shutdown, StartUp(true, true);
    RunThree(s, stop, start, stop);
    RunThree(s, start, stop, stop);
    assert [stop, start][..0] == [] && [stop, start][..1] == [stop] && [start][..0] == [];
    events := if s.server.engine then [] else if s.up then [stop, start] else [start];
  }

  /** Over all lifespans of a process the quota can be relied on exactly when fallback mode is on, the quota
      admits nothing, or there is no engine and no startup can load one. */
  lemma QuotaHoldsForever(s: State)
    requires Initial(s)
    ensures (forall events :: WithinQuota(Run(s, events)))
            <==> s.server.fallback || (!s.server.engine && !CanLoad(s.config)) || s.server.quota < 1
    ensures (forall events :: LoopSchedule(s, events) ==> WithinQuota(Run(s, events)))
            <==> s.server.fallback || (!s.server.engine && !CanLoad(s.config)) || s.server.quota < 1
  {
    if s.server.fallback || (!s.server.engine && !CanLoad(s.config)) || s.server.quota < 1 {
      forall events ensures WithinQuota(Run(s, events)) {
        HarmlessIsWithinQuota(s, events, CanLoad(s.config));
      }
    } else {
      var front := LoadEngine(s);
      var h := Run(s, front);
      var back := BoundIsTight(h, "p", 1);
      QuotaBound(h, back);
      RunAppend(s, front, back);
      LoopAppend(s, front, back);
      assert !WithinQuota(Run(s, front + back));
    }
  }

  /** A new process with a model and a quota comes up in exactly one mode, and can be relied on to stay within the
      quota exactly when it cannot use the GPU. */
  lemma ProcessKeepsQuota(s: State, cuda: bool, loads: bool)
    requires Fresh(s) && s.config.modelPath != "" && s.server.quota >= 1
    ensures var h := Step(s, StartUp(cuda, loads));
            && h.up && h.server.engine != h.server.fallback
            && (h.server.engine <==> s.config.useGpu && cuda && s.config.installed && loads)
    ensures (forall events :: Run(s, events).server.counter <= s.server.quota)
            <==> !(s.config.useGpu && s.config.installed)
  {
    QuotaHoldsForever(s);
    forall events ensures WithinQuota(Run(s, events)) <==> Run(s, events).server.counter <= s.server.quota {
      QuotaBound(s, events);
    }
  }

  // ----- the process

  class Process {
    const quota: int
    const counter: Ledger.TokenCounter
    var engine: bool
    var fallback: bool

    constructor (quota: int)
      ensures this.quota == quota && !engine && !fallback && fresh(counter) && !counter.locked && counter.tokens == 0
    {
      this.quota := quota;
      counter := new Ledger.TokenCounter();
      engine, fallback := false, false;
    }

    ghost function View(): Server
      reads this, counter
    {
      Server(quota, engine, fallback, counter.tokens)
    }

    method Start(modelPath: string, useGpu: bool, cuda: bool, installed: bool, loads: bool) returns (ok: bool)
      modifies this
      ensures var modes := Startup(modelPath, useGpu, cuda, installed, loads, old(engine), old(fallback));
              && (ok <==> modes.Some?)
              && (if ok then (engine, fallback) == modes.value else engine == old(engine) && fallback == old(fallback))
    {
      if modelPath == "" {
        return false;
      }
      if useGpu && cuda {
        if !installed {
          fallback := true;
        } else if loads {
          engine := true;
        } else {
          engine := false;
          fallback := true;
        }
      } else {
        fallback := true;
      }
      return true;
    }

    method Stop()
      modifies this
      ensures !engine && fallback == old(fallback)
    {
      engine := false;
    }

    /** `generate` up to its await, or to its end when it does not reach one. */
    method Generate(maxTokens: nat, outcome: Outcome) returns (phase: Phase)
      requires !counter.locked
      modifies counter
      ensures !counter.locked
      ensures var (sv, p) := Enter(old(View()), maxTokens);
              (View(), phase) == if p.Calling? then EngineReply(sv, maxTokens, outcome) else (sv, p)
      ensures phase == NotReady <==> !engine && !fallback
      ensures phase == Refused <==> (engine || fallback) && maxTokens > quota - old(counter.tokens)
      ensures phase == NotReady || phase == Refused || phase == Failed ==> counter.tokens == old(counter.tokens)
      ensures phase == Sleeping <==> fallback && maxTokens <= quota - old(counter.tokens)
      ensures phase == Sleeping ==> counter.tokens == old(counter.tokens) + maxTokens
      ensures phase.Answered? ==> outcome == Produces(phase.tokens) && counter.tokens == old(counter.tokens) + phase.tokens
    {
      if !engine && !fallback {
        return NotReady;
      }
      var reserved, remaining := counter.TryReserve(maxTokens, quota);
      if !reserved {
        return Refused;
      }
      if fallback {
        return Sleeping;
      }
      if !engine || outcome.Raises? {
        counter.Adjust(maxTokens, 0);
        return Failed;
      }
      if outcome.Empty? {
        counter.Adjust(maxTokens, 0);
        return Failed;
      }
      counter.Adjust(maxTokens, outcome.tokens);
      return Answered(outcome.tokens);
    }

    /** The rest of the fallback path. */
    method Continue(prompt: string, maxTokens: nat) returns (text: string, tokens: nat)
      requires !counter.locked
      modifies counter
      ensures !counter.locked
      ensures (View(), Answered(tokens)) == Resume(old(View()), prompt, maxTokens)
      ensures |Words(text)| == tokens
    {
      text, tokens := Fallback.Generate(prompt, maxTokens);
      counter.Adjust(maxTokens, tokens);
    }
  }
}
