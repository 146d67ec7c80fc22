/** The request metrics: a count and a latency sum updated under one lock by the middleware, and read under it
    by the two metrics endpoints. Lock operations and the accesses to the two globals are separate steps. */
module Metrics {
  import opened Options
  import opened Numbers

  datatype Op = Record(latency: real) | Report

  datatype Pc =
    | Ready
    | Waiting(op: Op)
    | Holding(op: Op)
    | Counted(latency: real)                 // the count is written, the sum not yet
    | Averaged(average: real)                // a reader has computed the average, the total is next
    | Unlocking

  /** One locked read: the average in milliseconds and the request total. */
  datatype Snapshot = Snapshot(average: real, total: int)

  /** `recorded` holds the latencies in the order in which the middleware finished recording them. */
  datatype State = State(count: int, sum: real, lock: Option<nat>, pcs: map<nat, Pc>,
                         recorded: seq<real>, snapshots: seq<Snapshot>)

  datatype Move = Invoke(op: Op) | Advance

  function PcOf(s: State, t: nat): Pc {
    if t in s.pcs then s.pcs[t] else Ready
  }

  function At(s: State, t: nat, pc: Pc): State {
    s.(pcs := s.pcs[t := pc])
  }

  function Average(sum: real, count: int): real {
    if count > 0 then sum / (count as real) * 1000.0 else 0.0
  }

  function Step(s: State, t: nat, move: Move): State {
    match move
    case Invoke(op) => if PcOf(s, t).Ready? then At(s, t, Waiting(op)) else s
    case Advance =>
      match PcOf(s, t)
      case Ready => s
      case Waiting(op) => if s.lock.None? then At(s, t, Holding(op)).(lock := Some(t)) else s
      case Holding(op) =>
        if op.Record? then At(s, t, Counted(op.latency)).(count := s.count + 1)
        else At(s, t, Averaged(Average(s.sum, s.count)))
      case Counted(latency) => At(s, t, Unlocking).(sum := s.sum + latency, recorded := s.recorded + [latency])
      case Averaged(average) => At(s, t, Unlocking).(snapshots := s.snapshots + [Snapshot(average, s.count)])
      case Unlocking => At(s, t, Ready).(lock := None)
  }

  function Run(s: State, schedule: seq<(nat, Move)>): State {
    if schedule == [] then s
    else
      var (t, move) := schedule[|schedule| - 1];
      Step(Run(s, schedule[..|schedule| - 1]), t, move)
  }

  predicate Initial(s: State) {
    s == State(0, 0.0, None, map[], [], [])
  }

  predicate InsideLock(pc: Pc) {
    pc.Holding? || pc.Counted? || pc.Averaged? || pc.Unlocking?
  }

  predicate LockFacts(s: State, t: nat) {
    && (InsideLock(PcOf(s, t)) <==> s.lock == Some(t))
    && (PcOf(s, t).Averaged? ==> PcOf(s, t).average == Average(s.sum, s.count))
  }

  /** Whether the lock holder is between its two writes. */
  predicate MidUpdate(s: State) {
    s.lock.Some? && PcOf(s, s.lock.value).Counted?
  }

  /** A snapshot reports the average over exactly the first `total` recorded latencies. */
  predicate Faithful(snapshot: Snapshot, recorded: seq<real>) {
    && 0 <= snapshot.total <= |recorded|
    && snapshot.average == Average(Sum(recorded[..snapshot.total]), snapshot.total)
  }

  ghost predicate Inv(s: State) {
    && (forall t :: LockFacts(s, t))
    && s.sum == Sum(s.recorded)
    && s.count == |s.recorded| + (if MidUpdate(s) then 1 else 0)
    && forall i :: 0 <= i < |s.snapshots| ==> Faithful(s.snapshots[i], s.recorded)
  }

  lemma LockFactsKept(s: State, t: nat, move: Move, u: nat)
    requires LockFacts(s, t) && LockFacts(s, u)
    ensures LockFacts(Step(s, t, move), u)
  {
  }

  lemma StaysFaithful(snapshot: Snapshot, recorded: seq<real>, latency: real)
    requires Faithful(snapshot, recorded)
    ensures Faithful(snapshot, recorded + [latency])
  {
    assert (recorded + [latency])[..snapshot.total] == recorded[..snapshot.total];
  }

  lemma StepKeepsInv(s: State, t: nat, move: Move)
    requires Inv(s)
    ensures Inv(Step(s, t, move))
  {
    var s', pc := Step(s, t, move), PcOf(s, t);
    forall u ensures LockFacts(s', u) {
      assert LockFacts(s, t) && LockFacts(s, u);
      LockFactsKept(s, t, move, u);
    }
    assert LockFacts(s, t) && LockFacts(s', t);
    if move.Advance? && pc.Counted? {
      SumAppend(s.recorded, pc.latency);
      forall i | 0 <= i < |s.snapshots| ensures Faithful(s.snapshots[i], s'.recorded) {
        StaysFaithful(s.snapshots[i], s.recorded, pc.latency);
      }
    } else if move.Advance? && pc.Averaged? {
      assert s.recorded[..s.count] == s.recorded;
    }
  }

  /** In every interleaving every locked read is faithful to a prefix of what was recorded. */
  lemma {:induction false} SnapshotsAreConsistent(s: State, schedule: seq<(nat, Move)>)
    requires Initial(s)
    ensures Inv(Run(s, schedule))
  {
    if schedule != [] {
      var (t, move) := schedule[|schedule| - 1];
      SnapshotsAreConsistent(s, schedule[..|schedule| - 1]);
      StepKeepsInv(Run(s, schedule[..|schedule| - 1]), t, move);
    }
  }

  lemma {:induction false} SumBounds(xs: seq<real>, least: real, greatest: real)
    requires forall i :: 0 <= i < |xs| ==> least <= xs[i] <= greatest
    ensures (|xs| as real) * least <= Sum(xs) <= (|xs| as real) * greatest
  {
    if xs != [] {
      SumBounds(xs[1..], least, greatest);
      assert |xs| as real == |xs[1..]| as real + 1.0;
    }
  }

  /** So a reported average lies between the least and the greatest latency recorded by then, in milliseconds,
      and is zero when there is none. */
  lemma AverageIsBetween(snapshot: Snapshot, recorded: seq<real>, least: real, greatest: real)
    requires Faithful(snapshot, recorded)
    requires forall i :: 0 <= i < snapshot.total ==> least <= recorded[i] <= greatest
    ensures if snapshot.total == 0 then snapshot.average == 0.0
            else least * 1000.0 <= snapshot.average <= greatest * 1000.0
  {
    var n := snapshot.total;
    SumBounds(recorded[..n], least, greatest);
    if n > 0 {
      var sum, c := Sum(recorded[..n]), n as real;
      DivideBounds(sum, c, least, greatest);
    }
  }

  lemma DivideBounds(sum: real, c: real, least: real, greatest: real)
    requires c > 0.0 && c * least <= sum <= c * greatest
    ensures least <= sum / c <= greatest
  {
    var q := sum / c;
    assert (q - least) * c == sum - c * least >= 0.0;
    assert (greatest - q) * c == c * greatest - sum >= 0.0;
    SignOfFactor(q - least, c);
    SignOfFactor(greatest - q, c);
  }

  /** What one thread does when it runs through an operation without interference. */
  function Solo(s: State, t: nat, op: Op): State {
    var s1 := Step(Step(s, t, Invoke(op)), t, Advance);
    Step(Step(Step(s1, t, Advance), t, Advance), t, Advance)
  }

  /** Undisturbed, the steps do to the two globals what the methods of the class below do: a recording counts
      and adds one latency, a report leaves them alone and reads their average and count. */
  lemma SoloOperation(s: State, t: nat, op: Op)
    requires s.lock.None? && PcOf(s, t).Ready?
    ensures var s' := Solo(s, t, op);
            && s'.lock.None? && PcOf(s', t).Ready?
            && match op
               case Record(latency) =>
                 s'.count == s.count + 1 && s'.sum == s.sum + latency
                 && s'.recorded == s.recorded + [latency] && s'.snapshots == s.snapshots
               case Report =>
                 s'.count == s.count && s'.sum == s.sum && s'.recorded == s.recorded
                 && s'.snapshots == s.snapshots + [Snapshot(Average(s.sum, s.count), s.count)]
  {
    var s0 := Step(s, t, Invoke(op));
    assert PcOf(s0, t) == Waiting(op);
    var s1 := Step(s0, t, Advance);
    assert PcOf(s1, t) == Holding(op);
    var s2 := Step(s1, t, Advance);
    var s3 := Step(s2, t, Advance);
    assert PcOf(s3, t) == Unlocking;
  }

  /** The two globals and the two operations on them. */
  class RequestMetrics {
    var count: int
    var sum: real
    ghost var recorded: seq<real>

    ghost predicate Valid()
      reads this
    {
      count == |recorded| && sum == Sum(recorded)
    }

    constructor ()
      ensures Valid() && recorded == []
    {
      count, sum, recorded := 0, 0.0, [];
    }

    method Record(elapsed: real)
      requires Valid()
      modifies this
      ensures Valid() && recorded == old(recorded) + [elapsed]
      ensures count == old(count) + 1 && sum == old(sum) + elapsed
    {
      SumAppend(recorded, elapsed);
      count := count + 1;
      sum := sum + elapsed;
      recorded := recorded + [elapsed];
    }

    method Read() returns (average: real, total: int)
      requires Valid()
      ensures total == |recorded| && Faithful(Snapshot(average, total), recorded)
      ensures average == Average(sum, count) && total == count
    {
      average := if count > 0 then sum / (count as real) * 1000.0 else 0.0;
      total := count;
      assert recorded[..total] == recorded;
    }
  }
}
