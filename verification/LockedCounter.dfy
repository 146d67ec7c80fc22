/** The token counter under real threads: every read, comparison and write of `_value` and every lock operation
    is a step of its own, and the steps of any number of threads interleave arbitrarily. Every run is shown to
    be a run of the atomic ledger. */
module LockedCounter {
  import opened Options
  import opened Ledger
  import opened Numbers

  datatype Pc =
    | Ready
    | Entered(op: Op)                              // called, nothing done yet
    | Waiting(op: Op)                              // at the lock
    | Holding(op: Op)                              // has the lock
    | Compared(op: Op, remaining: int)             // try_reserve: remaining computed, comparison next
    | Loaded(op: Op, remaining: int, loaded: int)  // the counter was read for the update
    | Unlocking(op: Op, ret: Ret)                  // result known, release next

  datatype State = State(value: int, lock: Option<nat>, pcs: map<nat, Pc>, returned: seq<Event>)

  datatype Move = Invoke(op: Op) | Advance

  function PcOf(s: State, t: nat): Pc {
    if t in s.pcs then s.pcs[t] else Ready
  }

  function At(s: State, t: nat, pc: Pc): State {
    s.(pcs := s.pcs[t := pc])
  }

  function Return(s: State, t: nat, op: Op, ret: Ret): State {
    At(s, t, Ready).(returned := s.returned + [Event(t, op, ret)])
  }

  /** A thread that waits for a lock held by another one stays where it is. */
  function Step(s: State, t: nat, move: Move): State {
    match move
    case Invoke(op) => if PcOf(s, t).Ready? then At(s, t, Entered(op)) else s
    case Advance =>
      match PcOf(s, t)
      case Ready => s
      case Entered(op) =>
        if op.ReadValue? then Return(s, t, op, Value(s.value))
        else if op.Adjust? && op.reserved - op.actual == 0 then Return(s, t, op, Adjusted)
        else At(s, t, Waiting(op))
      case Waiting(op) => if s.lock.None? then At(s, t, Holding(op)).(lock := Some(t)) else s
      case Holding(op) =>
        if op.TryReserve? then At(s, t, Compared(op, op.quota - s.value)) else At(s, t, Loaded(op, 0, s.value))
      case Compared(op, remaining) =>
        if op.TryReserve? && op.requested > remaining then At(s, t, Unlocking(op, Reservation(false, remaining)))
        else At(s, t, Loaded(op, remaining, s.value))
      case Loaded(op, remaining, loaded) =>
        if op.TryReserve? then At(s, t, Unlocking(op, Reservation(true, remaining))).(value := loaded + op.requested)
        else if op.Adjust? then At(s, t, Unlocking(op, Adjusted)).(value := loaded - (op.reserved - op.actual))
        else s
      case Unlocking(op, ret) => Return(s, t, op, ret).(lock := None)
  }

  /** The step at which an operation takes effect: the write, the failed comparison, the unlocked read, or the
      discovery that there is nothing to adjust. */
  function Effect(s: State, t: nat, move: Move): seq<Event> {
    if move.Invoke? then []
    else
      match PcOf(s, t)
      case Entered(op) =>
        if op.ReadValue? then [Event(t, op, Value(s.value))]
        else if op.Adjust? && op.reserved - op.actual == 0 then [Event(t, op, Adjusted)]
        else []
      case Compared(op, remaining) =>
        if op.TryReserve? && op.requested > remaining then [Event(t, op, Reservation(false, remaining))] else []
      case Loaded(op, remaining, _) =>
        if op.TryReserve? then [Event(t, op, Reservation(true, remaining))]
        else if op.Adjust? then [Event(t, op, Adjusted)]
        else []
      case _ => []
  }

  type Schedule = seq<(nat, Move)>

  function Run(s: State, schedule: Schedule): State {
    if schedule == [] then s
    else
      var (t, move) := schedule[|schedule| - 1];
      Step(Run(s, schedule[..|schedule| - 1]), t, move)
  }

  /** The effects of a run, in the order in which they take place. */
  function Log(s: State, schedule: Schedule): seq<Event> {
    if schedule == [] then []
    else
      var before := schedule[..|schedule| - 1];
      var (t, move) := schedule[|schedule| - 1];
      Log(s, before) + Effect(Run(s, before), t, move)
  }

  predicate Initial(s: State) {
    s.lock.None? && s.pcs == map[] && s.returned == []
  }

  // ----- what the threads see

  function ByThread(events: seq<Event>, t: nat): seq<Event> {
    if events == [] then []
    else
      ByThread(events[..|events| - 1], t) + if events[|events| - 1].thread == t then [events[|events| - 1]] else []
  }

  /** The event that has taken effect but has not been returned yet. */
  function Pending(t: nat, pc: Pc): seq<Event> {
    if pc.Unlocking? then [Event(t, pc.op, pc.ret)] else []
  }

  predicate InsideLock(pc: Pc) {
    pc.Holding? || pc.Compared? || pc.Loaded? || pc.Unlocking?
  }

  /** What a thread inside the lock knows is still true. */
  predicate Accurate(s: State, pc: Pc) {
    match pc
    case Waiting(op) => !op.ReadValue?
    case Holding(op) => !op.ReadValue?
    case Compared(op, remaining) => op.TryReserve? && remaining == op.quota - s.value
    case Loaded(op, remaining, loaded) =>
      && loaded == s.value && !op.ReadValue?
      && (op.TryReserve? ==> remaining == op.quota - s.value && op.requested <= remaining)
    case _ => true
  }

  predicate LockFacts(s: State, t: nat) {
    (InsideLock(PcOf(s, t)) <==> s.lock == Some(t)) && Accurate(s, PcOf(s, t))
  }

  predicate ThreadInv(s: State, log: seq<Event>, t: nat) {
    && LockFacts(s, t)
    && ByThread(log, t) == ByThread(s.returned, t) + Pending(t, PcOf(s, t))
  }

  function Unreturned(s: State): seq<Event> {
    if s.lock.Some? then Pending(s.lock.value, PcOf(s, s.lock.value)) else []
  }

  ghost predicate Inv(s: State, start: int, log: seq<Event>) {
    && s.value == Replay(start, log) && Honest(start, log)
    && (forall t :: ThreadInv(s, log, t))
    && |log| == |s.returned| + |Unreturned(s)|
    && Admissions(log) == Admissions(s.returned) + Admissions(Unreturned(s))
  }

  lemma AppendOne(events: seq<Event>, e: Event, t: nat, start: int)
    ensures ByThread(events + [e], t) == ByThread(events, t) + if e.thread == t then [e] else []
    ensures Admissions(events + [e]) == Admissions(events) + if Admitted(e) then 1 else 0
    ensures Replay(start, events + [e]) == Apply(Replay(start, events), e.op).0
    ensures Honest(start, events + [e]) <==> Honest(start, events) && e.ret == Apply(Replay(start, events), e.op).1
  {
    assert (events + [e])[..|events + [e]| - 1] == events;
  }

  function Own(more: seq<Event>, t: nat): seq<Event> {
    if |more| == 1 && more[0].thread == t then more else []
  }

  lemma Extended(events: seq<Event>, more: seq<Event>, t: nat)
    requires |more| <= 1
    ensures Admissions(events + more) == Admissions(events) + Admissions(more)
    ensures ByThread(events + more, t) == ByThread(events, t) + Own(more, t)
  {
    if more == [] {
      assert events + more == events;
    } else {
      AppendOne(events, more[0], t, 0);
      assert more[..0] == [];
      assert more == [more[0]];
    }
  }

  /** An effect is exactly what the atomic operation does to the counter at that moment; other steps do not
      touch it. */
  lemma EffectIsAtomic(s: State, t: nat, move: Move)
    requires LockFacts(s, t)
    ensures var (s', effect) := (Step(s, t, move), Effect(s, t, move));
            if effect == [] then s'.value == s.value
            else |effect| == 1 && effect[0].thread == t && (s'.value, effect[0].ret) == Apply(s.value, effect[0].op)
  {
  }

  lemma EffectAppends(value: int, value': int, start: int, log: seq<Event>, effect: seq<Event>)
    requires value == Replay(start, log) && Honest(start, log)
    requires if effect == [] then value' == value
             else |effect| == 1 && (value', effect[0].ret) == Apply(value, effect[0].op)
    ensures value' == Replay(start, log + effect) && Honest(start, log + effect)
  {
    if effect == [] {
      assert log + effect == log;
    } else {
      AppendOne(log, effect[0], 0, start);
      assert effect == [effect[0]];
    }
  }

  lemma CountOf(events: seq<Event>, more: seq<Event>)
    requires |more| <= 1
    ensures |events + more| == |events| + |more|
    ensures Admissions(events + more) == Admissions(events) + Admissions(more)
  {
    Extended(events, more, 0);
  }

  predicate Balance(s: State, t: nat, move: Move) {
    var (s', effect) := (Step(s, t, move), Effect(s, t, move));
    && |s.returned| + |Unreturned(s)| + |effect| == |s'.returned| + |Unreturned(s')|
    && Admissions(s.returned) + Admissions(Unreturned(s)) + Admissions(effect)
       == Admissions(s'.returned) + Admissions(Unreturned(s'))
  }

  lemma UnlockBalances(s: State, t: nat)
    requires LockFacts(s, t) && PcOf(s, t).Unlocking?
    ensures Balance(s, t, Advance)
  {
    CountOf(s.returned, Pending(t, PcOf(s, t)));
  }

  lemma EntryBalances(s: State, t: nat)
    requires LockFacts(s, t) && PcOf(s, t).Entered? && (s.lock.Some? ==> LockFacts(s, s.lock.value))
    ensures Balance(s, t, Advance)
  {
    if Effect(s, t, Advance) != [] {
      CountOf(s.returned, Effect(s, t, Advance));
    }
  }

  /** No event is lost or invented between taking effect and returning. */
  lemma CountsBalance(s: State, t: nat, move: Move)
    requires LockFacts(s, t) && (s.lock.Some? ==> LockFacts(s, s.lock.value))
    ensures Balance(s, t, move)
  {
    if move.Advance? && PcOf(s, t).Unlocking? {
      UnlockBalances(s, t);
    } else if move.Advance? && PcOf(s, t).Entered? {
      EntryBalances(s, t);
    }
  }

  /** The results a step hands to its caller. */
  function Handed(s: State, t: nat, move: Move): seq<Event> {
    if move.Invoke? then []
    else
      match PcOf(s, t)
      case Entered(_) => Effect(s, t, move)
      case Unlocking(op, ret) => [Event(t, op, ret)]
      case _ => []
  }

  lemma HandedOver(s: State, t: nat, move: Move)
    requires LockFacts(s, t)
    ensures var (s', effect, handed) := (Step(s, t, move), Effect(s, t, move), Handed(s, t, move));
            && |handed| <= 1 && (handed != [] ==> handed[0].thread == t)
            && s'.returned == s.returned + handed
            && handed + Pending(t, PcOf(s', t)) == Pending(t, PcOf(s, t)) + effect
  {
    if Handed(s, t, move) == [] {
      assert s.returned + [] == s.returned;
    }
  }

  lemma LockFactsKept(s: State, t: nat, move: Move, u: nat)
    requires LockFacts(s, t) && LockFacts(s, u)
    ensures LockFacts(Step(s, t, move), u)
    ensures u != t ==> PcOf(Step(s, t, move), u) == PcOf(s, u)
  {
  }

  lemma ThreadInvKept(s: State, log: seq<Event>, t: nat, move: Move, u: nat)
    requires ThreadInv(s, log, t) && ThreadInv(s, log, u)
    ensures ThreadInv(Step(s, t, move), log + Effect(s, t, move), u)
  {
    var s', effect, handed := Step(s, t, move), Effect(s, t, move), Handed(s, t, move);
    LockFactsKept(s, t, move, u);
    EffectIsAtomic(s, t, move);
    HandedOver(s, t, move);
    Extended(log, effect, u);
    Extended(s.returned, handed, u);
    var pending, pending' := Pending(u, PcOf(s, u)), Pending(u, PcOf(s', u));
    if u != t {
      assert [] + pending' == pending' && pending + [] == pending;
    }
    Reassociate(ByThread(s.returned, u), pending, Own(effect, u), Own(handed, u), pending');
  }

  lemma Reassociate(r: seq<Event>, pending: seq<Event>, effect: seq<Event>, handed: seq<Event>, pending': seq<Event>)
    requires handed + pending' == pending + effect
    ensures (r + pending) + effect == (r + handed) + pending'
  {
    assert (r + pending) + effect == r + (pending + effect);
    assert (r + handed) + pending' == r + (handed + pending');
  }

  /** Refinement: any interleaving of any number of threads is a run of the atomic ledger. Its effects replayed
      atomically give the counter and every result, and each thread gets its own results in its own order. */
  lemma {:induction false} RunRefinesLedger(s: State, schedule: Schedule)
    requires Initial(s)
    ensures Inv(Run(s, schedule), s.value, Log(s, schedule))
  {
    if schedule != [] {
      var before := schedule[..|schedule| - 1];
      var (t, move) := schedule[|schedule| - 1];
      RunRefinesLedger(s, before);
      var h, log := Run(s, before), Log(s, before);
      assert ThreadInv(h, log, t);
      assert h.lock.Some? ==> ThreadInv(h, log, h.lock.value);
      var h', effect := Step(h, t, move), Effect(h, t, move);
      EffectIsAtomic(h, t, move);
      EffectAppends(h.value, h'.value, s.value, log, effect);
      CountsBalance(h, t, move);
      CountOf(log, effect);
      forall u ensures ThreadInv(h', log + effect, u) {
        assert ThreadInv(h, log, u);
        ThreadInvKept(h, log, t, move, u);
      }
    }
  }

  // ----- concurrent admission

  predicate OnlyInvokes(schedule: Schedule, allowed: Op -> bool) {
    forall i :: 0 <= i < |schedule| ==> schedule[i].1.Invoke? ==> allowed(schedule[i].1.op)
  }

  predicate DoesOnly(pc: Pc, allowed: Op -> bool) {
    pc.Ready? || allowed(pc.op)
  }

  lemma {:induction false} EveryEffectIs(s: State, schedule: Schedule, allowed: Op -> bool)
    requires Initial(s) && OnlyInvokes(schedule, allowed)
    ensures forall t :: DoesOnly(PcOf(Run(s, schedule), t), allowed)
    ensures forall i :: 0 <= i < |Log(s, schedule)| ==> allowed(Log(s, schedule)[i].op)
  {
    if schedule != [] {
      var before := schedule[..|schedule| - 1];
      var (t, move) := schedule[|schedule| - 1];
      EveryEffectIs(s, before, allowed);
      var h := Run(s, before);
      assert DoesOnly(PcOf(h, t), allowed);
      forall u ensures DoesOnly(PcOf(Step(h, t, move), u), allowed) {
        assert DoesOnly(PcOf(h, u), allowed);
      }
    }
  }

  /** Threads that only reserve, with any sizes: the admitted calls are the greedy first-fit selection in the
      order in which the calls took effect. */
  lemma ConcurrentGreedy(s: State, schedule: Schedule, quota: int)
    requires Initial(s) && OnlyInvokes(schedule, (op: Op) => op.TryReserve? && op.quota == quota)
    ensures var log := Log(s, schedule);
            && (forall i :: 0 <= i < |log| ==> log[i].op.TryReserve?)
            && Greedy(quota, s.value, Sizes(log)) == (Verdicts(log), Run(s, schedule).value)
  {
    RunRefinesLedger(s, schedule);
    EveryEffectIs(s, schedule, (op: Op) => op.TryReserve? && op.quota == quota);
    AdmissionIsGreedy(s.value, Log(s, schedule), quota);
  }

  /** Threads that only ever reserve `size` tokens, from an unused counter: when none is inside the lock, the
      calls that returned true are as many as fit the quota, whatever the interleaving. */
  lemma ConcurrentAdmission(s: State, schedule: Schedule, quota: int, size: int)
    requires Initial(s) && s.value == 0 && size >= 1
    requires OnlyInvokes(schedule, (op: Op) => op == TryReserve(size, quota))
    requires Run(s, schedule).lock.None?
    ensures var h := Run(s, schedule);
            && Admissions(h.returned) == Min(|h.returned|, Capacity(quota, size))
            && h.value == size * Admissions(h.returned)
  {
    RunRefinesLedger(s, schedule);
    EveryEffectIs(s, schedule, (op: Op) => op == TryReserve(size, quota));
    UniformAdmission(Log(s, schedule), quota, size);
  }

  // ----- every call can return

  lemma {:induction false} RunAppend(s: State, a: Schedule, b: Schedule)
    ensures Run(s, a + b) == Run(Run(s, a), b)
  {
    if b == [] {
      assert a + b == a;
    } else {
      var n := |b| - 1;
      assert (a + b)[..|a + b| - 1] == a + b[..n];
      RunAppend(s, a, b[..n]);
    }
  }

  /** The threads with a call in flight. */
  function InFlight(s: State): set<nat> {
    set t | t in s.pcs && !s.pcs[t].Ready?
  }

  /** The number of calls made in a run: a thread that is busy cannot make another one. */
  function CallsMade(s: State, schedule: Schedule): nat {
    if schedule == [] then 0
    else
      var before := schedule[..|schedule| - 1];
      var (t, move) := schedule[|schedule| - 1];
      CallsMade(s, before) + if move.Invoke? && PcOf(Run(s, before), t).Ready? then 1 else 0
  }

  function Busy(s: State, t: nat): nat { if PcOf(s, t).Ready? then 0 else 1 }

  /** A step changes the place of its own thread only; a call begins with an invocation and ends with its result. */
  lemma StepShape(s: State, t: nat, move: Move)
    requires LockFacts(s, t)
    ensures var s' := Step(s, t, move);
            && (s'.pcs == s.pcs || s'.pcs == s.pcs[t := PcOf(s', t)])
            && Busy(s', t) - Busy(s, t)
               == (if move.Invoke? && PcOf(s, t).Ready? then 1 else 0) - (|s'.returned| - |s.returned|)
  {
  }

  lemma InFlightChange(s: State, s': State, t: nat)
    requires s'.pcs == s.pcs || s'.pcs == s.pcs[t := PcOf(s', t)]
    ensures InFlight(s') == if Busy(s', t) == 1 then InFlight(s) + {t} else InFlight(s) - {t}
    ensures |InFlight(s')| - |InFlight(s)| == Busy(s', t) - Busy(s, t)
  {
    assert t in InFlight(s) <==> Busy(s, t) == 1;
    if Busy(s', t) == 1 {
      assert InFlight(s') == InFlight(s) + {t};
    } else {
      assert InFlight(s') == InFlight(s) - {t};
    }
  }

  /** Every call made has returned or is in flight. */
  lemma {:induction false} CallsAreCounted(s: State, schedule: Schedule)
    requires Initial(s)
    ensures CallsMade(s, schedule) == |Run(s, schedule).returned| + |InFlight(Run(s, schedule))|
  {
    if schedule == [] {
      assert InFlight(s) == {};
    } else {
      var before := schedule[..|schedule| - 1];
      var (t, move) := schedule[|schedule| - 1];
      CallsAreCounted(s, before);
      RunsAreSound(s, before);
      StepShape(Run(s, before), t, move);
      InFlightChange(Run(s, before), Run(s, schedule), t);
    }
  }

  /** An upper bound on the steps a call still takes once it has the lock or finds it free. */
  function Work(pc: Pc): nat {
    match pc
    case Ready => 0
    case Unlocking(_, _) => 1
    case Loaded(_, _, _) => 2
    case Compared(_, _) => 3
    case Holding(_) => 4
    case Waiting(_) => 5
    case Entered(_) => 6
  }

  /** A call that has the lock, or finds it free, makes progress. */
  lemma StepWorks(s: State, t: nat)
    requires LockFacts(s, t) && !PcOf(s, t).Ready? && (s.lock.None? || s.lock == Some(t))
    ensures var s' := Step(s, t, Advance);
            && Work(PcOf(s', t)) < Work(PcOf(s, t))
            && (s'.lock.None? || s'.lock == Some(t))
            && s'.pcs == s.pcs[t := PcOf(s', t)]
  {
  }

  /** Left to itself, such a call returns and leaves the lock free. */
  lemma {:induction false} CallReturns(s: State, t: nat) returns (more: Schedule)
    requires LockFacts(s, t) && !PcOf(s, t).Ready? && (s.lock.None? || s.lock == Some(t))
    ensures forall i :: 0 <= i < |more| ==> more[i] == (t, Advance)
    ensures Run(s, more).lock.None? && Run(s, more).pcs == s.pcs[t := Ready]
    decreases Work(PcOf(s, t))
  {
    var s' := Step(s, t, Advance);
    StepWorks(s, t);
    LockFactsKept(s, t, Advance, t);
    assert [(t, Advance)][..0] == [];
    assert Run(s, [(t, Advance)]) == s';
    more := [(t, Advance)];
    if !PcOf(s', t).Ready? {
      var rest := CallReturns(s', t);
      RunAppend(s, more, rest);
      more := more + rest;
      assert s.pcs[t := PcOf(s', t)][t := Ready] == s.pcs[t := Ready];
    }
  }

  ghost predicate Sound(s: State) {
    forall t :: LockFacts(s, t)
  }

  lemma RunsAreSound(s: State, schedule: Schedule)
    requires Initial(s)
    ensures Sound(Run(s, schedule))
  {
    RunRefinesLedger(s, schedule);
    forall t ensures LockFacts(Run(s, schedule), t) {
      assert ThreadInv(Run(s, schedule), Log(s, schedule), t);
    }
  }

  lemma HolderIsInFlight(s: State)
    requires Sound(s) && s.lock.Some?
    ensures s.lock.value in InFlight(s)
  {
    assert LockFacts(s, s.lock.value);
  }

  lemma SoundAfterReturn(s: State, t: nat, s': State)
    requires Sound(s) && (s.lock.None? || s.lock == Some(t))
    requires s'.lock.None? && s'.pcs == s.pcs[t := Ready]
    ensures Sound(s')
  {
    forall u ensures LockFacts(s', u) {
      assert LockFacts(s, u);
    }
  }

  /** The next call to finish: the one that has the lock, or any. */
  lemma NextToReturn(s: State) returns (t: nat)
    requires Sound(s) && InFlight(s) != {}
    ensures t in InFlight(s) && (s.lock.None? || s.lock == Some(t))
  {
    if s.lock.Some? {
      t := s.lock.value;
      HolderIsInFlight(s);
    } else {
      t :| t in InFlight(s);
    }
  }

  lemma {:induction false} Drain(s: State) returns (more: Schedule)
    requires Sound(s)
    ensures forall i :: 0 <= i < |more| ==> more[i].1.Advance?
    ensures InFlight(Run(s, more)) == {} && Run(s, more).lock.None?
    decreases |InFlight(s)|
  {
    if InFlight(s) == {} {
      more := [];
      if s.lock.Some? {
        HolderIsInFlight(s);
      }
    } else {
      var t := NextToReturn(s);
      var front := CallReturns(s, t);
      var s' := Run(s, front);
      SoundAfterReturn(s, t, s');
      InFlightChange(s, s', t);
      var rest := Drain(s');
      RunAppend(s, front, rest);
      more := front + rest;
    }
  }

  /** No deadlock: from every reachable state the calls in flight can all return, without any new one. */
  lemma AllCallsReturn(s: State, schedule: Schedule) returns (more: Schedule)
    requires Initial(s)
    ensures forall i :: 0 <= i < |more| ==> more[i].1.Advance?
    ensures InFlight(Run(s, schedule + more)) == {} && Run(s, schedule + more).lock.None?
  {
    RunsAreSound(s, schedule);
    more := Drain(Run(s, schedule));
    RunAppend(s, schedule, more);
  }

  lemma {:induction false} NoNewCalls(s: State, schedule: Schedule, more: Schedule)
    requires forall i :: 0 <= i < |more| ==> more[i].1.Advance?
    ensures CallsMade(s, schedule + more) == CallsMade(s, schedule)
  {
    if more == [] {
      assert schedule + more == schedule;
    } else {
      var n := |more| - 1;
      assert (schedule + more)[..|schedule + more| - 1] == schedule + more[..n];
      NoNewCalls(s, schedule, more[..n]);
    }
  }

  /** Any number of calls that each reserve `size` tokens from an unused counter: once all of them have returned, as
      many were admitted as fit the quota and the rest refused, whatever the interleaving. */
  lemma UniformOnceReturned(s: State, schedule: Schedule, quota: int, size: int)
    requires Initial(s) && s.value == 0 && size >= 1
    requires OnlyInvokes(schedule, (op: Op) => op == TryReserve(size, quota))
    requires InFlight(Run(s, schedule)) == {}
    ensures var (h, calls) := (Run(s, schedule), CallsMade(s, schedule));
            && |h.returned| == calls && Admissions(h.returned) == Min(calls, Capacity(quota, size))
            && h.value == size * Min(calls, Capacity(quota, size))
  {
    CallsAreCounted(s, schedule);
    RunsAreSound(s, schedule);
    if Run(s, schedule).lock.Some? {
      HolderIsInFlight(Run(s, schedule));
    }
    ConcurrentAdmission(s, schedule, quota, size);
  }

  /** And they can always all return. */
  lemma UniformReturns(s: State, schedule: Schedule, quota: int, size: int) returns (more: Schedule)
    requires Initial(s) && s.value == 0 && size >= 1
    requires OnlyInvokes(schedule, (op: Op) => op == TryReserve(size, quota))
    ensures var (h, calls) := (Run(s, schedule + more), CallsMade(s, schedule));
            && InFlight(h) == {} && |h.returned| == calls
            && Admissions(h.returned) == Min(calls, Capacity(quota, size))
            && h.value == size * Min(calls, Capacity(quota, size))
  {
    more := AllCallsReturn(s, schedule);
    NoNewCalls(s, schedule, more);
    UniformOnceReturned(s, schedule + more, quota, size);
  }

  // ----- one call alone

  /** Six steps are enough for any call. */
  function Alone(s: State, t: nat, op: Op): State {
    var s0 := Step(s, t, Invoke(op));
    var s3 := Step(Step(Step(s0, t, Advance), t, Advance), t, Advance);
    Step(Step(Step(s3, t, Advance), t, Advance), t, Advance)
  }

  /** Undisturbed, a call does to the counter what the atomic operation does, gets its result, and leaves the lock free. */
  lemma SoloCall(s: State, t: nat, op: Op)
    requires s.lock.None? && PcOf(s, t).Ready?
    ensures var (s', (value, ret)) := (Alone(s, t, op), Apply(s.value, op));
            && s'.lock.None? && PcOf(s', t).Ready?
            && s'.value == value && s'.returned == s.returned + [Event(t, op, ret)]
            && forall u :: u != t ==> PcOf(s', u) == PcOf(s, u)
  {
    var s0 := Step(s, t, Invoke(op));
    assert PcOf(s0, t) == Entered(op);
    var s1 := Step(s0, t, Advance);
    var s2 := Step(s1, t, Advance);
    var s3 := Step(s2, t, Advance);
    var s4 := Step(s3, t, Advance);
    if PcOf(s1, t).Waiting? {
      assert PcOf(s2, t) == Holding(op);
      assert PcOf(s3, t) == if op.TryReserve? then Compared(op, op.quota - s.value) else Loaded(op, 0, s.value);
    }
  }
}
