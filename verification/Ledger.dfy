/** The token counter of the inference server, as an atomic ledger and as the class that implements it. */
module Ledger {
  import opened Numbers

  datatype Op =
    | TryReserve(requested: int, quota: int)
    | Adjust(reserved: int, actual: int)
    | ReadValue

  datatype Ret = Reservation(ok: bool, remaining: int) | Adjusted | Value(value: int)

  /** One operation performed atomically: the new value and what the caller gets. */
  function Apply(value: int, op: Op): (int, Ret) {
    match op
    case TryReserve(requested, quota) =>
      var remaining := quota - value;
      if requested > remaining then (value, Reservation(false, remaining))
      else (value + requested, Reservation(true, remaining))
    case Adjust(reserved, actual) => (value - (reserved - actual), Adjusted)
    case ReadValue => (value, Value(value))
  }

  datatype Event = Event(thread: nat, op: Op, ret: Ret)

  /** The value after a sequence of atomic operations. */
  function Replay(value: int, log: seq<Event>): int {
    if log == [] then value else Apply(Replay(value, log[..|log| - 1]), log[|log| - 1].op).0
  }

  /** Every logged result is the one the atomic operation gives at that point. */
  predicate Honest(value: int, log: seq<Event>) {
    log == []
    || (Honest(value, log[..|log| - 1])
        && log[|log| - 1].ret == Apply(Replay(value, log[..|log| - 1]), log[|log| - 1].op).1)
  }

  /** What an operation in a run of the ledger sees and does: a reservation is granted exactly when it fits what is left
      of the quota, and is told what was left; a settlement gives back the difference; a read sees the counter. */
  predicate Exact(before: int, e: Event, after: int) {
    match e.op
    case TryReserve(requested, quota) =>
      && e.ret.Reservation? && e.ret.remaining == quota - before
      && (e.ret.ok <==> before + requested <= quota)
      && after == before + if e.ret.ok then requested else 0
    case Adjust(reserved, actual) => e.ret.Adjusted? && after == before + actual - reserved
    case ReadValue => e.ret == Value(before) && after == before
  }

  lemma {:induction false} ResultsAreExact(start: int, log: seq<Event>, i: nat)
    requires Honest(start, log) && i < |log|
    ensures Exact(Replay(start, log[..i]), log[i], Replay(start, log[..i + 1]))
    decreases |log|
  {
    var n := |log| - 1;
    if i == n {
      assert log[..i + 1] == log;
    } else {
      ResultsAreExact(start, log[..n], i);
      assert log[..n][..i] == log[..i] && log[..n][..i + 1] == log[..i + 1];
    }
  }

  class TokenCounter {
    var tokens: int
    var locked: bool

    constructor ()
      ensures tokens == 0 && !locked
    {
      tokens, locked := 0, false;
    }

    method TryReserve(requested: int, quota: int) returns (ok: bool, remaining: int)
      requires !locked
      modifies this
      ensures !locked
      ensures (tokens, Reservation(ok, remaining)) == Apply(old(tokens), Op.TryReserve(requested, quota))
    {
      locked := true;
      remaining := quota - tokens;
      if requested > remaining {
        locked := false;
        return false, remaining;
      }
      tokens := tokens + requested;
      locked := false;
      return true, remaining;
    }

    method Adjust(reserved: int, actual: int)
      requires !locked
      modifies this
      ensures !locked
      ensures (tokens, Adjusted) == Apply(old(tokens), Op.Adjust(reserved, actual))
    {
      var diff := reserved - actual;
      if diff != 0 {
        locked := true;
        tokens := tokens - diff;
        locked := false;
      }
    }
  }

  // ----- admission

  /** First fit in order: a request is admitted exactly when it still fits the quota. */
  function Greedy(quota: int, used: int, sizes: seq<int>): (seq<bool>, int) {
    if sizes == [] then ([], used)
    else
      var (admitted, before) := Greedy(quota, used, sizes[..|sizes| - 1]);
      var size := sizes[|sizes| - 1];
      if before + size <= quota then (admitted + [true], before + size) else (admitted + [false], before)
  }

  function Sizes(log: seq<Event>): seq<int>
    requires forall i :: 0 <= i < |log| ==> log[i].op.TryReserve?
  {
    seq(|log|, i requires 0 <= i < |log| => log[i].op.requested)
  }

  predicate Admitted(e: Event) {
    e.ret.Reservation? && e.ret.ok
  }

  function Verdicts(log: seq<Event>): seq<bool> {
    seq(|log|, i requires 0 <= i < |log| => Admitted(log[i]))
  }

  /** Without settlements the ledger admits the greedy first-fit selection in the order of its log. */
  lemma {:induction false} AdmissionIsGreedy(value: int, log: seq<Event>, quota: int)
    requires Honest(value, log)
    requires forall i :: 0 <= i < |log| ==> log[i].op.TryReserve? && log[i].op.quota == quota
    ensures Greedy(quota, value, Sizes(log)) == (Verdicts(log), Replay(value, log))
  {
    if log != [] {
      var before := log[..|log| - 1];
      AdmissionIsGreedy(value, before, quota);
      assert Sizes(log)[..|log| - 1] == Sizes(before);
      assert Verdicts(log) == Verdicts(before) + [Admitted(log[|log| - 1])];
    }
  }

  /** How many requests of one size fit into a quota. */
  function Capacity(quota: int, size: int): nat
    requires size >= 1
  {
    if quota < 0 then 0 else quota / size
  }

  function Admissions(log: seq<Event>): nat {
    if log == [] then 0 else Admissions(log[..|log| - 1]) + if Admitted(log[|log| - 1]) then 1 else 0
  }

  /** Requests of one size are admitted until the capacity is used up, and not beyond. */
  lemma {:induction false} UniformAdmission(log: seq<Event>, quota: int, size: int)
    requires size >= 1 && Honest(0, log)
    requires forall i :: 0 <= i < |log| ==> log[i].op == TryReserve(size, quota)
    ensures Admissions(log) == Min(|log|, Capacity(quota, size))
    ensures Replay(0, log) == size * Admissions(log)
  {
    if log != [] {
      var before := log[..|log| - 1];
      UniformAdmission(before, quota, size);
      FitsBelowCapacity(quota, size, Admissions(before));
    }
  }

  lemma FitsBelowCapacity(quota: int, size: int, n: nat)
    requires size >= 1
    ensures size * n + size <= quota <==> n < Capacity(quota, size)
    ensures size * n + size == size * (n + 1)
  {
    Distribute(size, n);
    if quota < 0 {
      ScaleUp(size, 0, n);
    } else {
      var c := quota / size;
      Distribute(size, c);
      QuotientBounds(quota, size);
      if n < c {
        ScaleUp(size, n + 1, c);
      } else {
        ScaleUp(size, c + 1, n + 1);
      }
    }
  }

  lemma Distribute(size: int, n: int)
    ensures size * (n + 1) == size * n + size
  {
  }

  lemma QuotientBounds(quota: nat, size: int)
    requires size >= 1
    ensures size * (quota / size) <= quota < size * (quota / size) + size
  {
  }
}
