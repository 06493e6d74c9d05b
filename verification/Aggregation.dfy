/** Collapsing the result files of a run's clients (benchmarking_tools/scaling-perf/benchmark_aggregation.py). */
module Aggregation {
  import opened Wrappers

  /** One client's result file, with the server metric under consideration. */
  datatype Client = Client(
    error: string, averageLatency: Option<real>, validTurns: int, metricAverage: Option<real>, sampleCount: int)

  const HARD_DEADLINE := "Hard deadline reached"

  predicate HasValidResponse(c: Client) {
    c.averageLatency.Some? && c.validTurns > 0
  }

  predicate IsHardDeadline(c: Client) {
    HARD_DEADLINE <= c.error
  }

  predicate HasRuntimeError(c: Client) {
    c.error != "" && !IsHardDeadline(c)
  }

  predicate IsFailed(c: Client) {
    HasRuntimeError(c)
  }

  predicate IsNoResponse(c: Client) {
    !IsFailed(c) && !HasValidResponse(c)
  }

  predicate IsSuccessful(c: Client) {
    !IsFailed(c) && HasValidResponse(c)
  }

  // ----- Counting clients -----

  function Count(clients: seq<Client>, p: Client -> bool): nat {
    if clients == [] then 0 else (if p(clients[0]) then 1 else 0) + Count(clients[1..], p)
  }

  /** Each file falls in exactly one class. */
  lemma {:induction false} ClassesPartition(clients: seq<Client>)
    ensures Count(clients, IsFailed) + Count(clients, IsNoResponse) + Count(clients, IsSuccessful) == |clients|
  {
    if clients != [] {
      ClassesPartition(clients[1..]);
    }
  }

  /** Which files from number `i` on are of a class. */
  ghost function Where(clients: seq<Client>, p: Client -> bool, i: nat): set<int> {
    set k | i <= k < |clients| && p(clients[k])
  }

  lemma {:induction false} CountIsSize(clients: seq<Client>, p: Client -> bool, i: nat)
    requires i <= |clients|
    ensures Count(clients[i..], p) == |Where(clients, p, i)|
    decreases |clients| - i
  {
    if i == |clients| {
      assert Where(clients, p, i) == {};
    } else {
      CountIsSize(clients, p, i + 1);
      assert clients[i..][1..] == clients[i + 1..];
      assert Where(clients, p, i) == Where(clients, p, i + 1) + if p(clients[i]) then {i} else {};
    }
  }

  lemma WhereSame(clients: seq<Client>, p: Client -> bool, s: set<int>)
    requires forall k: int :: k in s <==> 0 <= k < |clients| && p(clients[k])
    ensures Count(clients, p) == |s|
  {
    CountIsSize(clients, p, 0);
    assert s == Where(clients, p, 0) && clients[0..] == clients;
  }

  predicate Deadline(c: Client) {
    "Hard deadline reached" <= c.error
  }

  /** A file failed if it has an error other than the hard deadline; any other responded exactly if it has a latency and
      valid turns. */
  lemma ClassesByFields(clients: seq<Client>)
    ensures Count(clients, IsFailed) ==
      |set k | 0 <= k < |clients| && clients[k].error != "" && !Deadline(clients[k])|
    ensures Count(clients, IsNoResponse) ==
      |set k | 0 <= k < |clients| && (clients[k].error == "" || Deadline(clients[k]))
               && (clients[k].averageLatency == None || clients[k].validTurns <= 0)|
    ensures Count(clients, IsSuccessful) ==
      |set k | 0 <= k < |clients| && (clients[k].error == "" || Deadline(clients[k]))
               && clients[k].averageLatency != None && clients[k].validTurns > 0|
  {
    hide Deadline, IsFailed, IsNoResponse, IsSuccessful, Count;
    forall c: Client
      ensures IsFailed(c) <==> c.error != "" && !Deadline(c)
      ensures IsNoResponse(c) <==> (c.error == "" || Deadline(c)) && (c.averageLatency == None || c.validTurns <= 0)
      ensures IsSuccessful(c) <==> (c.error == "" || Deadline(c)) && c.averageLatency != None && c.validTurns > 0
    {
      ClassByFields(c);
    }
    WhereSame(clients, IsFailed, set k | 0 <= k < |clients| && clients[k].error != "" && !Deadline(clients[k]));
    WhereSame(clients, IsNoResponse, set k | 0 <= k < |clients| && (clients[k].error == "" || Deadline(clients[k]))
      && (clients[k].averageLatency == None || clients[k].validTurns <= 0));
    WhereSame(clients, IsSuccessful, set k | 0 <= k < |clients| && (clients[k].error == "" || Deadline(clients[k]))
      && clients[k].averageLatency != None && clients[k].validTurns > 0);
  }

  lemma ClassByFields(c: Client)
    ensures IsFailed(c) <==> c.error != "" && !Deadline(c)
    ensures IsNoResponse(c) <==> (c.error == "" || Deadline(c)) && (c.averageLatency == None || c.validTurns <= 0)
    ensures IsSuccessful(c) <==> (c.error == "" || Deadline(c)) && c.averageLatency != None && c.validTurns > 0
  {
  }

  datatype Totals = Totals(configured: int, successful: int, failed: int, noResponse: int)

  /** The counts of `aggregate_run_dir`; without a configured number every file counts. */
  method CountClients(clients: seq<Client>, numClients: Option<int>) returns (t: Totals)
    ensures t.configured == if numClients.Some? then numClients.value else |clients|
    ensures t.noResponse == Count(clients, IsNoResponse)
    ensures t.failed == Count(clients, IsFailed) + Max0(t.configured - |clients|)
    ensures t.successful == Count(clients, IsSuccessful) <==>
      |clients| <= t.configured || Count(clients, IsSuccessful) == 0
    ensures t.successful + t.failed + t.noResponse == t.configured <==>
      Count(clients, IsFailed) + Count(clients, IsNoResponse) <= t.configured
    ensures |clients| <= t.configured ==> t.successful + t.failed + t.noResponse == t.configured
  {
    var configured := if numClients.Some? then numClients.value else |clients|;
    var runtimeErrors := CountOf(clients, IsFailed);
    var noResponse := CountOf(clients, IsNoResponse);
    ClassesPartition(clients);
    var missing := Max0(configured - |clients|);
    var failed := runtimeErrors + missing;
    var successful := Max0(configured - failed - noResponse);
    t := Totals(configured, successful, failed, noResponse);
  }

  function Max0(n: int): int {
    if n > 0 then n else 0
  }

  method CountOf(clients: seq<Client>, p: Client -> bool) returns (n: nat)
    ensures n == Count(clients, p)
  {
    n := 0;
    var i := |clients|;
    while i > 0
      invariant 0 <= i <= |clients| && n == Count(clients[i..], p)
    {
      i := i - 1;
      assert clients[i..][1..] == clients[i + 1..];
      if p(clients[i]) {
        n := n + 1;
      }
    }
    assert clients[0..] == clients;
  }

  // ----- The weighted average -----

  function Sum(xs: seq<real>): real {
    if xs == [] then 0.0 else Sum(xs[..|xs| - 1]) + xs[|xs| - 1]
  }

  predicate Contributes(c: Client) {
    c.metricAverage.Some? && c.sampleCount != 0
  }

  function WeightOf(c: Client): real {
    if Contributes(c) then c.metricAverage.value * c.sampleCount as real else 0.0
  }

  function SamplesOf(c: Client): int {
    if Contributes(c) then c.sampleCount else 0
  }

  function Weighted(clients: seq<Client>): real {
    if clients == [] then 0.0
    else
      var c := clients[|clients| - 1];
      Weighted(clients[..|clients| - 1]) + WeightOf(c)
  }

  function TotalCount(clients: seq<Client>): int {
    if clients == [] then 0
    else
      var c := clients[|clients| - 1];
      TotalCount(clients[..|clients| - 1]) + SamplesOf(c)
  }

  function AverageOf(clients: seq<Client>): Option<real> {
    if TotalCount(clients) == 0 then None else Some(Weighted(clients) / TotalCount(clients) as real)
  }

  /** `_weighted_average`. */
  method WeightedAverage(clients: seq<Client>) returns (average: Option<real>, total: int)
    ensures total == TotalCount(clients)
    ensures average == AverageOf(clients)
  {
    var weighted := 0.0;
    total := 0;
    for i := 0 to |clients|
      invariant weighted == Weighted(clients[..i]) && total == TotalCount(clients[..i])
    {
      assert clients[..i + 1][..i] == clients[..i];
      var c := clients[i];
      if c.metricAverage.Some? && c.sampleCount != 0 {
        weighted := weighted + c.metricAverage.value * c.sampleCount as real;
        total := total + c.sampleCount;
      }
    }
    assert clients[..|clients|] == clients;
    average := if total != 0 then Some(weighted / total as real) else None;
  }

  /** The client reports the mean and the number of its samples. */
  predicate Reports(c: Client, samples: seq<real>) {
    c.sampleCount == |samples| && (samples != [] ==> c.metricAverage == Some(Sum(samples) / |samples| as real))
  }

  function Pooled(samples: seq<seq<real>>): seq<real> {
    if samples == [] then [] else Pooled(samples[..|samples| - 1]) + samples[|samples| - 1]
  }

  lemma {:induction false} SumAppend(xs: seq<real>, ys: seq<real>)
    ensures Sum(xs + ys) == Sum(xs) + Sum(ys)
  {
    if ys == [] {
      assert xs + ys == xs;
    } else {
      assert (xs + ys)[..|xs + ys| - 1] == xs + ys[..|ys| - 1];
      SumAppend(xs, ys[..|ys| - 1]);
    }
  }

  lemma WeightIsSum(c: Client, samples: seq<real>)
    requires Reports(c, samples)
    ensures WeightOf(c) == Sum(samples) && SamplesOf(c) == |samples|
  {
    if samples != [] {
      MeanTimesCount(Sum(samples), |samples| as real);
    }
  }

  lemma MeanTimesCount(sum: real, n: real)
    requires n != 0.0
    ensures sum / n * n == sum
  {
  }

  lemma {:induction false} WeightsArePool(clients: seq<Client>, samples: seq<seq<real>>)
    requires |clients| == |samples| && forall k | 0 <= k < |clients| :: Reports(clients[k], samples[k])
    ensures Weighted(clients) == Sum(Pooled(samples)) && TotalCount(clients) == |Pooled(samples)|
  {
    hide WeightOf, SamplesOf, Reports;
    if clients != [] {
      var n := |clients| - 1;
      WeightsArePool(clients[..n], samples[..n]);
      SumAppend(Pooled(samples[..n]), samples[n]);
      WeightIsSum(clients[n], samples[n]);
    }
  }

  /** When every client reports its own mean and count, the average over the clients is the mean of all samples. */
  lemma AverageIsPooledMean(clients: seq<Client>, samples: seq<seq<real>>)
    requires |clients| == |samples| && forall k | 0 <= k < |clients| :: Reports(clients[k], samples[k])
    ensures var pool := Pooled(samples);
            && TotalCount(clients) == |pool|
            && AverageOf(clients) == if pool == [] then None else Some(Sum(pool) / |pool| as real)
  {
    WeightsArePool(clients, samples);
  }

  // ----- The 95th percentile -----

  function Insert(x: real, xs: seq<real>): seq<real> {
    if xs == [] || x <= xs[0] then [x] + xs else [xs[0]] + Insert(x, xs[1..])
  }

  function Sorted(xs: seq<real>): seq<real> {
    if xs == [] then [] else Insert(xs[0], Sorted(xs[1..]))
  }

  predicate Ascending(xs: seq<real>) {
    forall i, j | 0 <= i < j < |xs| :: xs[i] <= xs[j]
  }

  lemma {:induction false} InsertMembers(x: real, xs: seq<real>)
    ensures multiset(Insert(x, xs)) == multiset(xs) + multiset{x}
  {
    if xs != [] && x > xs[0] {
      InsertMembers(x, xs[1..]);
      assert xs == [xs[0]] + xs[1..];
    }
  }

  lemma {:induction false} InsertAscends(x: real, xs: seq<real>)
    requires Ascending(xs)
    ensures Ascending(Insert(x, xs))
  {
    if xs != [] && x > xs[0] {
      var rest := Insert(x, xs[1..]);
      InsertAscends(x, xs[1..]);
      InsertMembers(x, xs[1..]);
      forall j | 0 <= j < |rest| ensures xs[0] <= rest[j] {
        assert rest[j] in multiset(rest);
      }
    }
  }

  lemma {:induction false} SortedSorts(xs: seq<real>)
    ensures Ascending(Sorted(xs)) && multiset(Sorted(xs)) == multiset(xs)
  {
    if xs != [] {
      SortedSorts(xs[1..]);
      InsertMembers(xs[0], Sorted(xs[1..]));
      InsertAscends(xs[0], Sorted(xs[1..]));
      assert xs == [xs[0]] + xs[1..];
    }
  }

  /** `math.ceil(0.95 * n) - 1`, computed exactly. */
  function Rank(n: nat): int {
    (95 * n + 99) / 100 - 1
  }

  /** `calculate_p95`. */
  function CalculateP95(values: seq<real>): (p: Option<real>)
    ensures p.None? <==> values == []
  {
    if values == [] then None
    else
      var ordered := Sorted(values);
      SortedSorts(values);
      assert |ordered| == |multiset(ordered)| == |multiset(values)| == |values|;
      var index := Rank(|ordered|);
      Some(ordered[if index > |ordered| - 1 then |ordered| - 1 else if index < 0 then 0 else index])
  }

  /** How many of the values are below `x`, or not above it. */
  function CountBelow(xs: seq<real>, x: real, orEqual: bool): nat {
    if xs == [] then 0
    else (if xs[0] < x || (orEqual && xs[0] == x) then 1 else 0) + CountBelow(xs[1..], x, orEqual)
  }

  lemma {:induction false} CountInsert(y: real, xs: seq<real>, x: real, orEqual: bool)
    ensures CountBelow(Insert(y, xs), x, orEqual) == CountBelow([y] + xs, x, orEqual)
  {
    if xs == [] || y <= xs[0] {
    } else {
      CountInsert(y, xs[1..], x, orEqual);
      assert ([xs[0]] + Insert(y, xs[1..]))[1..] == Insert(y, xs[1..]);
      assert ([y] + xs)[1..] == xs && ([y] + xs[1..])[1..] == xs[1..];
    }
  }

  lemma {:induction false} CountSorted(xs: seq<real>, x: real, orEqual: bool)
    ensures CountBelow(Sorted(xs), x, orEqual) == CountBelow(xs, x, orEqual)
  {
    if xs != [] {
      CountSorted(xs[1..], x, orEqual);
      CountInsert(xs[0], Sorted(xs[1..]), x, orEqual);
      assert ([xs[0]] + Sorted(xs[1..]))[1..] == Sorted(xs[1..]);
    }
  }

  lemma {:induction false} CountAscending(xs: seq<real>, i: nat)
    requires Ascending(xs) && i < |xs|
    ensures CountBelow(xs, xs[i], true) > i && CountBelow(xs, xs[i], false) <= i
  {
    if i == 0 {
      NoneBelow(xs, xs[0]);
    } else {
      CountAscending(xs[1..], i - 1);
    }
  }

  lemma {:induction false} NoneBelow(xs: seq<real>, x: real)
    requires forall k | 0 <= k < |xs| :: xs[k] >= x
    ensures CountBelow(xs, x, false) == 0
  {
    if xs != [] {
      NoneBelow(xs[1..], x);
    }
  }

  /** The percentile is one of the values; at least 95 in 100 of them are not above it, and fewer are below it. */
  lemma {:induction false} P95IsNearestRank(values: seq<real>)
    requires values != []
    ensures var p := CalculateP95(values).value;
            && p in values
            && 100 * CountBelow(values, p, true) >= 95 * |values|
            && 100 * CountBelow(values, p, false) < 95 * |values|
  {
    var ordered, p := Sorted(values), CalculateP95(values).value;
    SortedSorts(values);
    assert |ordered| == |multiset(ordered)| == |multiset(values)| == |values|;
    var index := Rank(|values|);
    assert ordered[index] == p && p in multiset(ordered);
    CountAscending(ordered, index);
    CountSorted(values, p, true);
    CountSorted(values, p, false);
  }
}
