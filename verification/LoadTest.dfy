/** The load test: latency percentiles and the summary of one concurrency level. */
module LoadTest {
  import opened Options
  import opened Numbers

  datatype Result = Result(requestId: int, latency: real, tokens: int, success: bool)

  datatype Summary = Summary(
    concurrency: int, total: int, successful: int, failed: int,
    p50: real, p95: real, p99: real, mean: real, least: real, greatest: real, throughput: real)

  // ----- sorting

  predicate IsSorted(xs: seq<real>) {
    forall i, j :: 0 <= i < j < |xs| ==> xs[i] <= xs[j]
  }

  function Insert(x: real, xs: seq<real>): seq<real> {
    if xs == [] || x <= xs[0] then [x] + xs else [xs[0]] + Insert(x, xs[1..])
  }

  /** `sorted(xs)` */
  function Sorted(xs: seq<real>): seq<real> {
    if xs == [] then [] else Insert(xs[0], Sorted(xs[1..]))
  }

  predicate AllAtLeast(xs: seq<real>, bound: real) {
    forall i :: 0 <= i < |xs| ==> bound <= xs[i]
  }

  lemma {:induction false} InsertSorts(x: real, xs: seq<real>, bound: real)
    requires IsSorted(xs) && AllAtLeast(xs, bound) && bound <= x
    ensures IsSorted(Insert(x, xs)) && AllAtLeast(Insert(x, xs), bound)
  {
    if xs != [] && !(x <= xs[0]) {
      InsertSorts(x, xs[1..], xs[0]);
    }
  }

  lemma {:induction false} InsertAdds(x: real, xs: seq<real>)
    ensures multiset(Insert(x, xs)) == multiset(xs) + multiset{x}
    ensures |Insert(x, xs)| == |xs| + 1
  {
    if xs != [] && !(x <= xs[0]) {
      InsertAdds(x, xs[1..]);
      assert xs == [xs[0]] + xs[1..];
    }
  }

  lemma TailElements(a: seq<real>)
    requires a != []
    ensures multiset(a[1..]) == multiset(a) - multiset{a[0]}
  {
    assert a == [a[0]] + a[1..];
  }

  lemma {:induction false} SortedSorts(xs: seq<real>)
    ensures IsSorted(Sorted(xs)) && multiset(Sorted(xs)) == multiset(xs)
    ensures |Sorted(xs)| == |xs|
  {
    if xs != [] {
      var rest := Sorted(xs[1..]);
      SortedSorts(xs[1..]);
      var least := if rest == [] || xs[0] <= rest[0] then xs[0] else rest[0];
      InsertSorts(xs[0], rest, least);
      InsertAdds(xs[0], rest);
      TailElements(xs);
    }
  }

  lemma HeadIsLeast(a: seq<real>, b: seq<real>)
    requires IsSorted(a) && a != [] && b != [] && multiset(a) == multiset(b)
    ensures a[0] <= b[0]
  {
    assert b[0] in multiset(b);
    assert b[0] in a;
  }

  /** A sorted sequence is determined by its elements. */
  lemma {:induction false} SortedIsUnique(a: seq<real>, b: seq<real>)
    requires IsSorted(a) && IsSorted(b) && multiset(a) == multiset(b)
    ensures a == b
  {
    assert |a| == |multiset(a)| == |multiset(b)| == |b|;
    if a != [] {
      HeadIsLeast(a, b);
      HeadIsLeast(b, a);
      assert a == [a[0]] + a[1..] && b == [b[0]] + b[1..];
      TailElements(a);
      TailElements(b);
      SortedIsUnique(a[1..], b[1..]);
    }
  }

  // ----- percentiles

  /** Python's `int(x)` */
  function Truncate(x: real): int {
    if x >= 0.0 then x.Floor else -(-x).Floor
  }

  /** `data[i]`, with None for the IndexError. */
  function At(data: seq<real>, i: int): Option<real> {
    if 0 <= i < |data| then Some(data[i])
    else if -|data| <= i < 0 then Some(data[|data| + i])
    else None
  }

  /** `pct` percent of `n` */
  function Share(n: nat, pct: real): real {
    (n as real) * pct / 100.0
  }

  function Percentile(data: seq<real>, pct: real): Option<real> {
    var idx := Truncate(Share(|data|, pct));
    At(data, if idx <= |data| - 1 then idx else |data| - 1)
  }

  function CountAtMost(xs: seq<real>, bound: real): nat {
    if xs == [] then 0 else (if xs[0] <= bound then 1 else 0) + CountAtMost(xs[1..], bound)
  }

  function CountBelow(xs: seq<real>, bound: real): nat {
    if xs == [] then 0 else (if xs[0] < bound then 1 else 0) + CountBelow(xs[1..], bound)
  }

  lemma {:induction false} PrefixCounts(xs: seq<real>, bound: real, n: nat)
    requires n <= |xs| && forall i :: 0 <= i < n ==> xs[i] <= bound
    ensures CountAtMost(xs, bound) >= n
  {
    if n > 0 {
      PrefixCounts(xs[1..], bound, n - 1);
    }
  }

  lemma {:induction false} SuffixCounts(xs: seq<real>, bound: real, n: nat)
    requires n <= |xs| && forall i :: n <= i < |xs| ==> bound <= xs[i]
    ensures CountBelow(xs, bound) <= n
  {
    if xs != [] {
      SuffixCounts(xs[1..], bound, if n > 0 then n - 1 else 0);
    }
  }

  /** The index a percentile is taken from. */
  function Rank(n: nat, pct: real): (i: nat)
    requires n > 0 && 0.0 <= pct <= 100.0
    ensures i < n
  {
    ShareInRange(n, pct);
    var idx := Share(n, pct).Floor;
    if idx <= n - 1 then idx else n - 1
  }

  lemma RankInRange(data: seq<real>, pct: real)
    requires data != [] && 0.0 <= pct <= 100.0
    ensures Percentile(data, pct) == Some(data[Rank(|data|, pct)])
  {
    ShareInRange(|data|, pct);
  }

  lemma ShareInRange(n: nat, pct: real)
    requires 0.0 <= pct <= 100.0
    ensures 0.0 <= Share(n, pct) <= n as real
  {
    var x := n as real;
    ScaleMonotone(x, 0.0, pct);
    ScaleMonotone(x, pct, 100.0);
    PercentOf(x * pct, x);
  }

  lemma PercentOf(y: real, x: real)
    requires 0.0 <= y <= x * 100.0
    ensures 0.0 <= y / 100.0 <= x
  {
  }

  lemma RankBounds(n: nat, pct: real)
    requires n > 0 && 0.0 <= pct <= 100.0
    ensures Rank(n, pct) as real <= Share(n, pct) <= (Rank(n, pct) + 1) as real
    ensures pct < 100.0 ==> Share(n, pct) < (Rank(n, pct) + 1) as real
    ensures pct == 100.0 ==> Rank(n, pct) == n - 1
  {
    ShareInRange(n, pct);
    FloorBounds(Share(n, pct));
    if pct < 100.0 {
      ShareBelow(n, pct);
    } else {
      PercentOf((n as real) * 100.0, n as real);
      assert Share(n, pct) == n as real;
    }
  }

  lemma ShareBelow(n: nat, pct: real)
    requires n > 0 && pct < 100.0
    ensures Share(n, pct) < n as real
  {
    var x := n as real;
    assert x * (100.0 - pct) > 0.0;
    assert x * pct < x * 100.0;
  }

  lemma FloorBounds(x: real)
    ensures x.Floor as real <= x < (x.Floor + 1) as real
  {
  }

  lemma CountsAround(data: seq<real>, i: nat)
    requires i < |data| && IsSorted(data)
    ensures CountBelow(data, data[i]) <= i < CountAtMost(data, data[i])
  {
    PrefixCounts(data, data[i], i + 1);
    SuffixCounts(data, data[i], i);
  }

  lemma Between(below: nat, i: nat, atMost: nat, share: real)
    requires below <= i < atMost && i as real <= share <= (i + 1) as real
    ensures below as real <= share <= atMost as real
    ensures share < (i + 1) as real ==> share < atMost as real
  {
  }

  /** At most `pct` percent of the samples are below the result, and more than `pct` percent are at most the result; at
      100 percent, where none can be, it is the greatest sample. */
  lemma PercentileRank(data: seq<real>, pct: real)
    requires data != [] && IsSorted(data) && 0.0 <= pct <= 100.0
    ensures Percentile(data, pct).Some?
    ensures var r := Percentile(data, pct).value;
            && CountBelow(data, r) as real <= Share(|data|, pct) <= CountAtMost(data, r) as real
            && (pct < 100.0 ==> Share(|data|, pct) < CountAtMost(data, r) as real)
            && (pct == 100.0 ==> r == data[|data| - 1])
  {
    RankInRange(data, pct);
    var i := Rank(|data|, pct);
    CountsAround(data, i);
    RankBounds(|data|, pct);
    Between(CountBelow(data, data[i]), i, CountAtMost(data, data[i]), Share(|data|, pct));
  }

  lemma RankMonotone(n: nat, p: real, q: real)
    requires n > 0 && 0.0 <= p <= q <= 100.0
    ensures Rank(n, p) <= Rank(n, q)
  {
    ScaleMonotone(n as real, p, q);
    var x, y := Share(n, p), Share(n, q);
    assert x <= y;
    assert x.Floor as real <= y;
  }

  /** Higher percentiles are no smaller, and all lie between the extremes. */
  lemma PercentileMonotone(data: seq<real>, p: real, q: real)
    requires data != [] && IsSorted(data) && 0.0 <= p <= q <= 100.0
    ensures Percentile(data, p).Some? && Percentile(data, q).Some?
    ensures data[0] <= Percentile(data, p).value <= Percentile(data, q).value <= data[|data| - 1]
  {
    RankInRange(data, p);
    RankInRange(data, q);
    RankMonotone(|data|, p, q);
  }

  // ----- one concurrency level

  function Latency(r: Result): seq<real> {
    if r.success then [r.latency] else []
  }

  function Latencies(results: seq<Result>): seq<real> {
    if results == [] then []
    else Latencies(results[..|results| - 1]) + Latency(results[|results| - 1])
  }

  function Least(xs: seq<real>): real
    requires xs != []
  {
    if |xs| == 1 then xs[0] else var m := Least(xs[1..]); if xs[0] <= m then xs[0] else m
  }

  function Greatest(xs: seq<real>): real
    requires xs != []
  {
    if |xs| == 1 then xs[0] else var m := Greatest(xs[1..]); if xs[0] >= m then xs[0] else m
  }

  function ValueOr0(o: Option<real>): real {
    if o.Some? then o.value else 0.0
  }

  function Summarize(concurrency: int, total: nat, latencies: seq<real>, totalTime: real): Summary {
    var ok := |latencies|;
    var xs := Sorted(latencies);
    var rate := if totalTime > 0.0 then (ok as real) / totalTime else 0.0;
    if ok == 0 then Summary(concurrency, total, 0, total, 0.0, 0.0, 0.0, 0.0, 0.0, 0.0, rate)
    else
      Summary(concurrency, total, ok, total - ok,
              ValueOr0(Percentile(xs, 50.0)), ValueOr0(Percentile(xs, 95.0)), ValueOr0(Percentile(xs, 99.0)),
              Sum(xs) / (ok as real), Least(xs), Greatest(xs), rate)
  }

  /** `run_load_level` after the requests were submitted: `completions` are the results in the order in which
      the futures complete. */
  method RunLevel(concurrency: int, completions: seq<Result>, totalTime: real)
    returns (results: seq<Result>, summary: Summary)
    ensures results == completions
    ensures summary == Summarize(concurrency, |completions|, Latencies(completions), totalTime)
  {
    results := [];
    for i := 0 to |completions|
      invariant results == completions[..i]
    {
      results := results + [completions[i]];
    }
    var ok := [];
    for i := 0 to |results|
      invariant ok == Latencies(results[..i])
    {
      assert results[..i + 1][..i] == results[..i];
      if results[i].success {
        ok := ok + [results[i].latency];
      }
    }
    assert results[..|results|] == results;
    var latencies := if |ok| > 0 then Sorted(ok) else [0.0];
    SortedSorts(ok);
    var p50, p95, p99, mean, least, greatest := 0.0, 0.0, 0.0, 0.0, 0.0, 0.0;
    if |ok| > 0 {
      p50 := ValueOr0(Percentile(latencies, 50.0));
      p95 := ValueOr0(Percentile(latencies, 95.0));
      p99 := ValueOr0(Percentile(latencies, 99.0));
      mean := Sum(latencies) / (|latencies| as real);
      least, greatest := Least(latencies), Greatest(latencies);
    }
    summary := Summary(concurrency, |results|, |ok|, |results| - |ok|, p50, p95, p99, mean, least, greatest,
                       if totalTime > 0.0 then (|ok| as real) / totalTime else 0.0);
  }

  lemma {:induction false} LatenciesAppend(a: seq<Result>, b: seq<Result>)
    ensures Latencies(a + b) == Latencies(a) + Latencies(b)
  {
    if b == [] {
      assert a + b == a;
    } else {
      var n := |b| - 1;
      assert (a + b)[..|a + b| - 1] == a + b[..n];
      LatenciesAppend(a, b[..n]);
    }
  }

  lemma LatenciesAround(a: seq<Result>, r: Result, c: seq<Result>)
    ensures multiset(Latencies((a + [r]) + c)) == multiset(Latencies(a + c)) + multiset(Latency(r))
  {
    LatenciesAppend(a + [r], c);
    LatenciesAppend(a, c);
    assert (a + [r])[..|a|] == a;
    MiddleOut(Latencies(a), Latency(r), Latencies(c));
  }

  lemma MiddleOut(p: seq<real>, q: seq<real>, r: seq<real>)
    ensures multiset((p + q) + r) == multiset(p + r) + multiset(q)
  {
  }

  lemma Extract(b: seq<Result>, r: Result) returns (before: seq<Result>, after: seq<Result>)
    requires r in multiset(b)
    ensures b == (before + [r]) + after
    ensures multiset(before + after) == multiset(b) - multiset{r}
  {
    assert r in b;
    var i :| 0 <= i < |b| && b[i] == r;
    before, after := b[..i], b[i + 1..];
    assert b == (before + [r]) + after;
  }

  lemma {:induction false} LatenciesOfPermutation(a: seq<Result>, b: seq<Result>)
    requires multiset(a) == multiset(b)
    ensures multiset(Latencies(a)) == multiset(Latencies(b))
    decreases |a|
  {
    assert |a| == |multiset(a)| == |multiset(b)| == |b|;
    if a != [] {
      var r := a[0];
      assert r in multiset(a);
      var a1, a2 := Extract(a, r);
      var b1, b2 := Extract(b, r);
      LatenciesAround(a1, r, a2);
      LatenciesAround(b1, r, b2);
      LatenciesOfPermutation(a1 + a2, b1 + b2);
    }
  }

  /** The summary does not depend on the order in which the requests complete. */
  lemma SummaryIgnoresOrder(concurrency: int, a: seq<Result>, b: seq<Result>, totalTime: real)
    requires multiset(a) == multiset(b)
    ensures Summarize(concurrency, |a|, Latencies(a), totalTime) == Summarize(concurrency, |b|, Latencies(b), totalTime)
  {
    LatenciesOfPermutation(a, b);
    assert |a| == |multiset(a)| == |multiset(b)| == |b|;
    var x, y := Latencies(a), Latencies(b);
    SortedSorts(x);
    SortedSorts(y);
    assert |x| == |multiset(x)| == |multiset(y)| == |y|;
    SortedIsUnique(Sorted(x), Sorted(y));
  }

  lemma {:induction false} SortedExtremes(xs: seq<real>)
    requires xs != [] && IsSorted(xs)
    ensures Least(xs) == xs[0] && Greatest(xs) == xs[|xs| - 1]
  {
    if |xs| > 1 {
      SortedExtremes(xs[1..]);
    }
  }

  lemma ExtremesOfSorted(ls: seq<real>)
    requires ls != []
    ensures var xs := Sorted(ls);
            && |xs| == |ls| && IsSorted(xs)
            && Least(xs) == xs[0] && Greatest(xs) == xs[|xs| - 1]
            && xs[0] in ls && xs[|xs| - 1] in ls
            && forall x :: x in ls ==> xs[0] <= x <= xs[|xs| - 1]
  {
    var xs := Sorted(ls);
    SortedSorts(ls);
    SortedExtremes(xs);
    assert xs[0] in multiset(xs) && xs[|xs| - 1] in multiset(xs);
    forall x | x in ls ensures xs[0] <= x <= xs[|xs| - 1] {
      assert x in multiset(xs);
      assert x in xs;
    }
  }

  lemma PercentilesOrdered(xs: seq<real>)
    requires xs != [] && IsSorted(xs)
    ensures xs[0] <= ValueOr0(Percentile(xs, 50.0)) <= ValueOr0(Percentile(xs, 95.0))
               <= ValueOr0(Percentile(xs, 99.0)) <= xs[|xs| - 1]
  {
    PercentileMonotone(xs, 50.0, 95.0);
    PercentileMonotone(xs, 95.0, 99.0);
  }

  /** With at least one success the summary is ordered, and its extremes are latencies that occurred and bound
      all others. */
  lemma SummaryIsOrdered(concurrency: int, total: nat, ls: seq<real>, totalTime: real)
    requires ls != []
    ensures var s := Summarize(concurrency, total, ls, totalTime);
            && s.least <= s.p50 <= s.p95 <= s.p99 <= s.greatest
            && s.least in ls && s.greatest in ls
            && (forall x :: x in ls ==> s.least <= x <= s.greatest)
  {
    ExtremesOfSorted(ls);
    PercentilesOrdered(Sorted(ls));
  }

  lemma {:induction false} InsertKeepsCounts(x: real, xs: seq<real>, bound: real)
    ensures CountAtMost(Insert(x, xs), bound) == CountAtMost([x] + xs, bound)
    ensures CountBelow(Insert(x, xs), bound) == CountBelow([x] + xs, bound)
    ensures Sum(Insert(x, xs)) == x + Sum(xs)
  {
    assert ([x] + xs)[1..] == xs;
    if xs != [] && !(x <= xs[0]) {
      var rest := xs[1..];
      InsertKeepsCounts(x, rest, bound);
      assert ([x] + rest)[1..] == rest;
      assert ([xs[0]] + Insert(x, rest))[1..] == Insert(x, rest);
    }
  }

  lemma {:induction false} SortedKeepsCounts(xs: seq<real>, bound: real)
    ensures CountAtMost(Sorted(xs), bound) == CountAtMost(xs, bound)
    ensures CountBelow(Sorted(xs), bound) == CountBelow(xs, bound)
    ensures Sum(Sorted(xs)) == Sum(xs)
  {
    if xs != [] {
      var rest := Sorted(xs[1..]);
      SortedKeepsCounts(xs[1..], bound);
      InsertKeepsCounts(xs[0], rest, bound);
      assert ([xs[0]] + rest)[1..] == rest;
    }
  }

  /** `value` is the `pct` percentile of the unsorted latencies. */
  predicate IsPercentile(ls: seq<real>, pct: real, value: real) {
    CountBelow(ls, value) as real <= Share(|ls|, pct) < CountAtMost(ls, value) as real
  }

  lemma {:induction false} CountsNest(ls: seq<real>, a: real, b: real)
    requires a < b
    ensures CountAtMost(ls, a) <= CountBelow(ls, b)
  {
    if ls != [] {
      CountsNest(ls[1..], a, b);
    }
  }

  /** There is only one. */
  lemma PercentileIsUnique(ls: seq<real>, pct: real, a: real, b: real)
    requires IsPercentile(ls, pct, a) && IsPercentile(ls, pct, b)
    ensures a == b
  {
    if a < b {
      CountsNest(ls, a, b);
    } else if b < a {
      CountsNest(ls, b, a);
    }
  }

  lemma SortedPercentile(ls: seq<real>, pct: real)
    requires ls != [] && 0.0 <= pct < 100.0
    ensures IsPercentile(ls, pct, ValueOr0(Percentile(Sorted(ls), pct)))
  {
    SortedSorts(ls);
    PercentileRank(Sorted(ls), pct);
    SortedKeepsCounts(ls, Percentile(Sorted(ls), pct).value);
  }

  /** The reported percentiles are those of the latencies as they came in, and no other values are. */
  lemma SummaryPercentiles(concurrency: int, total: nat, ls: seq<real>, totalTime: real, value: real)
    requires ls != []
    ensures var s := Summarize(concurrency, total, ls, totalTime);
            && (IsPercentile(ls, 50.0, value) <==> value == s.p50)
            && (IsPercentile(ls, 95.0, value) <==> value == s.p95)
            && (IsPercentile(ls, 99.0, value) <==> value == s.p99)
  {
    SummaryFields(concurrency, total, ls, totalTime);
    ExactPercentile(ls, 50.0, value);
    ExactPercentile(ls, 95.0, value);
    ExactPercentile(ls, 99.0, value);
  }

  lemma ExactPercentile(ls: seq<real>, pct: real, value: real)
    requires ls != [] && 0.0 <= pct < 100.0
    ensures IsPercentile(ls, pct, value) <==> value == ValueOr0(Percentile(Sorted(ls), pct))
  {
    var p := ValueOr0(Percentile(Sorted(ls), pct));
    SortedPercentile(ls, pct);
    if IsPercentile(ls, pct, value) {
      PercentileIsUnique(ls, pct, value, p);
    }
  }

  lemma SummaryFields(concurrency: int, total: nat, ls: seq<real>, totalTime: real)
    requires ls != []
    ensures var (s, xs) := (Summarize(concurrency, total, ls, totalTime), Sorted(ls));
            && s.p50 == ValueOr0(Percentile(xs, 50.0))
            && s.p95 == ValueOr0(Percentile(xs, 95.0))
            && s.p99 == ValueOr0(Percentile(xs, 99.0))
  {
  }

  /** The reported mean is the sum of the latencies as they came in over their number. */
  lemma SummaryMean(concurrency: int, total: nat, ls: seq<real>, totalTime: real)
    requires ls != []
    ensures Summarize(concurrency, total, ls, totalTime).mean == Sum(ls) / (|ls| as real)
  {
    SortedKeepsCounts(ls, 0.0);
  }

  /** The successful requests, by their place. */
  function Successes(results: seq<Result>): set<nat> {
    set i: nat | i < |results| && results[i].success
  }

  /** There is one latency for each. */
  lemma {:induction false} LatenciesAreSuccesses(results: seq<Result>)
    ensures |Latencies(results)| == |Successes(results)| <= |results|
  {
    if results == [] {
      assert Successes(results) == {};
    } else {
      var n := |results| - 1;
      LatenciesAreSuccesses(results[..n]);
      assert Successes(results) == Successes(results[..n]) + if results[n].success then {n} else {};
    }
  }

  /** And it is theirs. */
  lemma {:induction false} LatenciesAreTheirs(results: seq<Result>, x: real)
    ensures x in Latencies(results) <==> exists i :: i in Successes(results) && results[i].latency == x
  {
    if results != [] {
      var n := |results| - 1;
      var before := results[..n];
      LatenciesAreTheirs(before, x);
      assert Successes(results) == Successes(before) + if results[n].success then {n} else {};
      if x in Latencies(before) {
        var i :| i in Successes(before) && before[i].latency == x;
        assert i in Successes(results) && results[i].latency == x;
      }
    }
  }

  /** Every request is counted once, as successful or as failed; without a success all times are reported as zero. */
  lemma EveryRequestCounted(concurrency: int, results: seq<Result>, totalTime: real)
    ensures var s := Summarize(concurrency, |results|, Latencies(results), totalTime);
            && s.concurrency == concurrency && s.total == |results| && s.successful == |Successes(results)|
            && s.successful + s.failed == s.total && s.failed >= 0
            && (s.successful == 0 ==> s.p50 == s.p95 == s.p99 == s.mean == s.least == s.greatest == 0.0)
  {
    LatenciesAreSuccesses(results);
  }

  /** The throughput accounts for all successes over the time taken, when time was taken. */
  lemma Throughput(concurrency: int, total: nat, ls: seq<real>, totalTime: real)
    ensures var s := Summarize(concurrency, total, ls, totalTime);
            if totalTime > 0.0 then s.throughput * totalTime == s.successful as real else s.throughput == 0.0
  {
    if totalTime > 0.0 {
      TimesQuotient(|ls| as real, totalTime);
    }
  }

  lemma TimesQuotient(x: real, y: real)
    requires y > 0.0
    ensures x / y * y == x
  {
  }
}
