/** The system-wide snapshot derived from the fleet and the recent log, and
    the bounded rolling history of snapshots. */
module Metrics {
  import opened Types

  /** The number of snapshots the history keeps. */
  const HistoryCap := 20

  /** The number of most recent log entries the error rate looks at, and
      its fixed divisor. */
  const ErrorWindow := 10

  /** `xs.reduce((acc, p) => acc + p.cpuUsage, 0)`. */
  function SumCpu(ps: seq<Pod>): real
  {
    if |ps| == 0 then 0.0 else SumCpu(ps[..|ps| - 1]) + ps[|ps| - 1].cpuUsage
  }

  function SumMemory(ps: seq<Pod>): int
  {
    if |ps| == 0 then 0 else SumMemory(ps[..|ps| - 1]) + ps[|ps| - 1].memoryUsage
  }

  function SumLatency(ps: seq<Pod>): real
  {
    if |ps| == 0 then 0.0 else SumLatency(ps[..|ps| - 1]) + ps[|ps| - 1].latency
  }

  /** The pods of one environment, in fleet order. */
  function InEnvironment(ps: seq<Pod>, env: Environment): (r: seq<Pod>)
    ensures |r| <= |ps|
    ensures forall i :: 0 <= i < |r| ==> r[i].environment == env
  {
    if |ps| == 0 then []
    else
      var rest := InEnvironment(ps[..|ps| - 1], env);
      var p := ps[|ps| - 1];
      if p.environment == env then rest + [p] else rest
  }

  /** The pods of one environment are exactly the fleet's pods in that environment. */
  lemma {:induction false} InEnvironmentMembers(ps: seq<Pod>, env: Environment)
    ensures forall p :: p in InEnvironment(ps, env) <==> p in ps && p.environment == env
    decreases |ps|
  {
    if |ps| > 0 {
      var init := ps[..|ps| - 1];
      InEnvironmentMembers(init, env);
      assert ps == init + [ps[|ps| - 1]];
    }
  }

  /** A mean whose divisor is `n || 1`, so that no pods give 0. */
  function Mean(total: real, n: nat): real
  {
    total / (if n == 0 then 1 else n) as real
  }

  /** `s.slice(-k)` for k > 0: the last k elements, or all of s when it is shorter. */
  function Newest<T>(s: seq<T>, k: nat): (r: seq<T>)
    ensures |r| == if |s| <= k then |s| else k
    ensures r == s[|s| - |r|..]
  {
    if |s| <= k then s else s[|s| - k..]
  }

  /** The number of ERROR entries; CRITICAL entries are not counted. */
  function CountErrors(logs: seq<LogEntry>): (n: nat)
    ensures n <= |logs|
  {
    if |logs| == 0 then 0
    else CountErrors(logs[..|logs| - 1]) + (if logs[|logs| - 1].level == LogLevel.Error then 1 else 0)
  }

  /** `(recentErrors / 10) * 100`, with the divisor fixed at 10 however few logs there are. */
  function ErrorRate(logs: seq<LogEntry>): real
  {
    (CountErrors(Newest(logs, ErrorWindow)) as real / ErrorWindow as real) * 100.0
  }

  /** The mean cpu over the whole fleet. */
  function TotalCpu(ps: seq<Pod>): real
  {
    Mean(SumCpu(ps), |ps|)
  }

  function AvgLatency(ps: seq<Pod>): real
  {
    Mean(SumLatency(ps), |ps|)
  }

  /** The mean cpu over one environment's pods (onPremLoad, cloudLoad). */
  function EnvironmentLoad(ps: seq<Pod>, env: Environment): real
  {
    Mean(SumCpu(InEnvironment(ps, env)), |InEnvironment(ps, env)|)
  }

  /** The snapshot of the current fleet and log. */
  function Aggregate(ps: seq<Pod>, logs: seq<LogEntry>, timestamp: string): (m: SystemMetrics)
    ensures m.activePods == |ps| && m.timestamp == timestamp
    ensures |ps| == 0 ==>
      m.totalCpu == 0.0 && m.avgLatency == 0.0 && m.onPremLoad == 0.0 && m.cloudLoad == 0.0 && m.totalMemory == 0
    ensures 0.0 <= m.errorRate <= 100.0
  {
    SystemMetrics(
      timestamp, TotalCpu(ps), SumMemory(ps), AvgLatency(ps), |ps|,
      ErrorRate(logs), EnvironmentLoad(ps, OnPrem), EnvironmentLoad(ps, Cloud))
  }

  lemma {:induction false} SumCpuBounds(ps: seq<Pod>)
    requires forall i :: 0 <= i < |ps| ==> 0.0 <= ps[i].cpuUsage <= 100.0
    ensures 0.0 <= SumCpu(ps) <= 100.0 * |ps| as real
    decreases |ps|
  {
    if |ps| > 0 {
      SumCpuBounds(ps[..|ps| - 1]);
    }
  }

  lemma {:induction false} SumLatencyNonNegative(ps: seq<Pod>)
    requires forall i :: 0 <= i < |ps| ==> ps[i].latency >= 0.0
    ensures SumLatency(ps) >= 0.0
    decreases |ps|
  {
    if |ps| > 0 {
      SumLatencyNonNegative(ps[..|ps| - 1]);
    }
  }

  lemma {:induction false} SumMemoryAtLeast(ps: seq<Pod>)
    requires forall i :: 0 <= i < |ps| ==> ps[i].memoryUsage >= 50
    ensures SumMemory(ps) >= 50 * |ps|
    decreases |ps|
  {
    if |ps| > 0 {
      SumMemoryAtLeast(ps[..|ps| - 1]);
    }
  }

  lemma MeanBounds(total: real, n: nat, hi: real)
    requires 0.0 <= total <= hi * n as real
    ensures 0.0 <= Mean(total, n)
    ensures n > 0 ==> Mean(total, n) <= hi
  {
    if n > 0 {
      var m := Mean(total, n);
      assert m * n as real == total;
      if m > hi {
        assert m * n as real > hi * n as real;
      }
    }
  }

  /** The mean cpu of pods whose cpu is a percentage is a percentage. */
  lemma CpuMeanInRange(xs: seq<Pod>)
    requires forall i :: 0 <= i < |xs| ==> 0.0 <= xs[i].cpuUsage <= 100.0
    ensures 0.0 <= Mean(SumCpu(xs), |xs|) <= 100.0
  {
    SumCpuBounds(xs);
    MeanBounds(SumCpu(xs), |xs|, 100.0);
  }

  /** The load of one environment is a percentage when every pod's cpu is. */
  lemma EnvironmentLoadInRange(ps: seq<Pod>, env: Environment)
    requires forall i :: 0 <= i < |ps| ==> 0.0 <= ps[i].cpuUsage <= 100.0
    ensures 0.0 <= Mean(SumCpu(InEnvironment(ps, env)), |InEnvironment(ps, env)|) <= 100.0
  {
    var r := InEnvironment(ps, env);
    InEnvironmentMembers(ps, env);
    forall i | 0 <= i < |r|
      ensures 0.0 <= r[i].cpuUsage <= 100.0
    {
      assert r[i] in ps;
    }
    CpuMeanInRange(r);
  }

  lemma LatencyMeanNonNegative(ps: seq<Pod>)
    requires forall i :: 0 <= i < |ps| ==> ps[i].latency >= 0.0
    ensures Mean(SumLatency(ps), |ps|) >= 0.0
  {
    SumLatencyNonNegative(ps);
    MeanBounds(SumLatency(ps), |ps|, SumLatency(ps));
  }

  /** When the fleet keeps its documented ranges, every load figure of the
      snapshot is a percentage, latency is non-negative, and memory is at
      least 50 MB per pod. */
  lemma AggregateInRange(ps: seq<Pod>, logs: seq<LogEntry>, timestamp: string)
    requires FleetOk(ps)
    ensures var m := Aggregate(ps, logs, timestamp);
      && 0.0 <= m.totalCpu <= 100.0
      && 0.0 <= m.onPremLoad <= 100.0
      && 0.0 <= m.cloudLoad <= 100.0
      && m.avgLatency >= 0.0
      && m.totalMemory >= 50 * m.activePods
  {
    CpuMeanInRange(ps);
    EnvironmentLoadInRange(ps, OnPrem);
    EnvironmentLoadInRange(ps, Cloud);
    LatencyMeanNonNegative(ps);
    SumMemoryAtLeast(ps);
  }

  /** The two environments partition the fleet: their pod counts and their
      cpu sums add up to the fleet's. */
  lemma {:induction false} EnvironmentsPartitionFleet(ps: seq<Pod>)
    ensures |InEnvironment(ps, OnPrem)| + |InEnvironment(ps, Cloud)| == |ps|
    ensures SumCpu(InEnvironment(ps, OnPrem)) + SumCpu(InEnvironment(ps, Cloud)) == SumCpu(ps)
    decreases |ps|
  {
    if |ps| > 0 {
      var init := ps[..|ps| - 1];
      var p := ps[|ps| - 1];
      EnvironmentsPartitionFleet(init);
      var a, b := InEnvironment(init, OnPrem), InEnvironment(init, Cloud);
      if p.environment == OnPrem {
        assert InEnvironment(ps, OnPrem) == a + [p];
        assert (a + [p])[..|a + [p]| - 1] == a;
      } else {
        assert InEnvironment(ps, Cloud) == b + [p];
        assert (b + [p])[..|b + [p]| - 1] == b;
      }
    }
  }

  lemma MeanTimesCount(total: real, n: nat)
    requires n == 0 ==> total == 0.0
    ensures Mean(total, n) * n as real == total
  {
  }

  /** Pooling two groups: the mean of the pooled totals, weighted by the
      pooled count, is the count-weighted sum of the two group means. */
  lemma PooledMean(sOn: real, nOn: nat, sCl: real, nCl: nat)
    requires nOn == 0 ==> sOn == 0.0
    requires nCl == 0 ==> sCl == 0.0
    ensures Mean(sOn + sCl, nOn + nCl) * (nOn + nCl) as real
      == Mean(sOn, nOn) * nOn as real + Mean(sCl, nCl) * nCl as real
  {
    MeanTimesCount(sOn + sCl, nOn + nCl);
    MeanTimesCount(sOn, nOn);
    MeanTimesCount(sCl, nCl);
  }

  /** One pod on premises at 90% and one in the cloud at 10%: the loads
      are 90 and 10 and the fleet mean is 50. */
  lemma TwoPodScenario(a: Pod, b: Pod)
    requires a.environment == OnPrem && a.cpuUsage == 90.0
    requires b.environment == Cloud && b.cpuUsage == 10.0
    ensures EnvironmentLoad([a, b], OnPrem) == 90.0
    ensures EnvironmentLoad([a, b], Cloud) == 10.0
    ensures TotalCpu([a, b]) == 50.0
  {
    var ps := [a, b];
    assert ps[..1] == [a] && [a][..0] == [] && [b][..0] == [];
    assert InEnvironment([a], OnPrem) == [a] && InEnvironment([a], Cloud) == [];
    assert InEnvironment(ps, OnPrem) == [a] && InEnvironment(ps, Cloud) == [b];
    assert SumCpu([b]) == SumCpu([]) + b.cpuUsage;
    assert SumCpu([a]) == SumCpu([]) + a.cpuUsage;
    assert SumCpu(ps) == SumCpu([a]) + b.cpuUsage;
  }

  /** A snapshot's fleet-wide load is the pod-weighted mean of its two
      environment loads, for nOn pods on premises and nCl in the cloud. */
  predicate PoolsLoads(m: SystemMetrics, nOn: nat, nCl: nat)
  {
    m.totalCpu * (nOn + nCl) as real == m.onPremLoad * nOn as real + m.cloudLoad * nCl as real
  }

  /** A snapshot whose fleet-wide load is the pooled mean of two groups'
      totals and whose environment loads are the groups' own means pools them. */
  lemma PooledMeansPool(m: SystemMetrics, sOn: real, nOn: nat, sCl: real, nCl: nat)
    requires nOn == 0 ==> sOn == 0.0
    requires nCl == 0 ==> sCl == 0.0
    requires m.totalCpu == Mean(sOn + sCl, nOn + nCl)
    requires m.onPremLoad == Mean(sOn, nOn) && m.cloudLoad == Mean(sCl, nCl)
    ensures PoolsLoads(m, nOn, nCl)
  {
    PooledMean(sOn, nOn, sCl, nCl);
  }

  /** The totals and counts behind a fleet's three cpu means: the
      fleet-wide mean (totalCpu) is the mean over the two environments' pods
      pooled together, and each environment's load is the mean over its own. */
  lemma PoolParts(ps: seq<Pod>) returns (sOn: real, nOn: nat, sCl: real, nCl: nat)
    ensures nOn == |InEnvironment(ps, OnPrem)| && nCl == |InEnvironment(ps, Cloud)|
    ensures nOn == 0 ==> sOn == 0.0
    ensures nCl == 0 ==> sCl == 0.0
    ensures TotalCpu(ps) == Mean(sOn + sCl, nOn + nCl)
    ensures EnvironmentLoad(ps, OnPrem) == Mean(sOn, nOn) && EnvironmentLoad(ps, Cloud) == Mean(sCl, nCl)
  {
    EnvironmentsPartitionFleet(ps);
    var onPrem, cloud := InEnvironment(ps, OnPrem), InEnvironment(ps, Cloud);
    sOn, nOn, sCl, nCl := SumCpu(onPrem), |onPrem|, SumCpu(cloud), |cloud|;
    assert SumCpu(ps) == sOn + sCl && |ps| == nOn + nCl;
  }

  /** Any snapshot whose loads are the fleet's means pools them. */
  lemma MeansPool(m: SystemMetrics, ps: seq<Pod>)
    requires m.totalCpu == TotalCpu(ps)
    requires m.onPremLoad == EnvironmentLoad(ps, OnPrem) && m.cloudLoad == EnvironmentLoad(ps, Cloud)
    ensures PoolsLoads(m, |InEnvironment(ps, OnPrem)|, |InEnvironment(ps, Cloud)|)
  {
    var sOn, nOn, sCl, nCl := PoolParts(ps);
    PooledMeansPool(m, sOn, nOn, sCl, nCl);
  }

  /** The snapshot's own loads pool: the two environments' pod counts add
      up to activePods, and totalCpu times activePods is the count-weighted
      sum of onPremLoad and cloudLoad. */
  lemma AggregatePoolsLoads(ps: seq<Pod>, logs: seq<LogEntry>, timestamp: string)
    ensures |InEnvironment(ps, OnPrem)| + |InEnvironment(ps, Cloud)| == Aggregate(ps, logs, timestamp).activePods
    ensures PoolsLoads(Aggregate(ps, logs, timestamp), |InEnvironment(ps, OnPrem)|, |InEnvironment(ps, Cloud)|)
  {
    EnvironmentsPartitionFleet(ps);
    MeansPool(Aggregate(ps, logs, timestamp), ps);
  }

  /** The same two pods, seen through the snapshot: onPremLoad 90,
      cloudLoad 10, totalCpu 50, the two memories summed and the two
      latencies averaged. */
  lemma AggregateTwoPods(a: Pod, b: Pod, logs: seq<LogEntry>, timestamp: string)
    requires a.environment == OnPrem && a.cpuUsage == 90.0
    requires b.environment == Cloud && b.cpuUsage == 10.0
    ensures var m := Aggregate([a, b], logs, timestamp);
      && m.onPremLoad == 90.0 && m.cloudLoad == 10.0 && m.totalCpu == 50.0
      && m.totalMemory == a.memoryUsage + b.memoryUsage
      && m.avgLatency == (a.latency + b.latency) / 2.0
      && m.activePods == 2
  {
    var ps := [a, b];
    assert ps[..1] == [a] && [a][..0] == [];
    assert SumMemory([a]) == SumMemory([]) + a.memoryUsage;
    assert SumLatency([a]) == SumLatency([]) + a.latency;
    assert SumMemory(ps) == a.memoryUsage + b.memoryUsage;
    assert SumLatency(ps) == a.latency + b.latency;
    assert AvgLatency(ps) == (a.latency + b.latency) / 2.0;
    TwoPodScenario(a, b);
  }

  /** The error rate is ten points per ERROR entry among the last ten
      entries, so it lies between 0 and 100. */
  lemma ErrorRateCounts(logs: seq<LogEntry>)
    ensures ErrorRate(logs) == 10.0 * CountErrors(Newest(logs, ErrorWindow)) as real
    ensures 0.0 <= ErrorRate(logs) <= 100.0
  {
  }

  lemma {:induction false} CountErrorsZero(logs: seq<LogEntry>)
    ensures CountErrors(logs) == 0 <==> forall i :: 0 <= i < |logs| ==> logs[i].level != LogLevel.Error
    decreases |logs|
  {
    if |logs| > 0 {
      CountErrorsZero(logs[..|logs| - 1]);
    }
  }

  /** The error rate is 0 exactly when none of the last ten entries is an
      ERROR entry. */
  lemma ErrorRateZeroIff(logs: seq<LogEntry>)
    ensures ErrorRate(logs) == 0.0 <==>
      forall i :: 0 <= i < |logs| && i >= |logs| - ErrorWindow ==> logs[i].level != LogLevel.Error
  {
    var w := Newest(logs, ErrorWindow);
    CountErrorsZero(w);
    var off := |logs| - |w|;
    assert forall i :: 0 <= i < |w| ==> w[i] == logs[off + i];
    if ErrorRate(logs) == 0.0 {
      forall i | 0 <= i < |logs| && i >= |logs| - ErrorWindow
        ensures logs[i].level != LogLevel.Error
      {
        assert w[i - off] == logs[i];
      }
    }
  }

  /** The snapshot's errorRate is ten points per ERROR entry among the last
      ten entries, and 0 exactly when none of them is an ERROR entry. */
  lemma AggregateErrorRate(ps: seq<Pod>, logs: seq<LogEntry>, timestamp: string)
    ensures var m := Aggregate(ps, logs, timestamp);
      && m.errorRate == 10.0 * CountErrors(Newest(logs, ErrorWindow)) as real
      && (m.errorRate == 0.0 <==>
          forall i :: 0 <= i < |logs| && i >= |logs| - ErrorWindow ==> logs[i].level != LogLevel.Error)
  {
    ErrorRateCounts(logs);
    ErrorRateZeroIff(logs);
  }

  /** Only the ERROR level matters: two windows whose entries are ERROR at
      the same positions count the same, whatever the other levels
      (CRITICAL included). */
  lemma {:induction false} CountErrorsSeesOnlyErrorLevel(a: seq<LogEntry>, b: seq<LogEntry>)
    requires |a| == |b|
    requires forall i :: 0 <= i < |a| ==> (a[i].level == LogLevel.Error <==> b[i].level == LogLevel.Error)
    ensures CountErrors(a) == CountErrors(b)
    decreases |a|
  {
    if |a| > 0 {
      CountErrorsSeesOnlyErrorLevel(a[..|a| - 1], b[..|b| - 1]);
    }
  }

  /** The error rate is unchanged by any change of level that does not
      create or remove an ERROR entry, such as CRITICAL for INFO. */
  lemma ErrorRateSeesOnlyErrorLevel(a: seq<LogEntry>, b: seq<LogEntry>)
    requires |a| == |b|
    requires forall i :: 0 <= i < |a| ==> (a[i].level == LogLevel.Error <==> b[i].level == LogLevel.Error)
    ensures ErrorRate(a) == ErrorRate(b)
  {
    WindowSeesOnlyErrorLevel(a, b);
  }

  /** The last ten entries of two such logs hold the same number of ERROR entries. */
  lemma WindowSeesOnlyErrorLevel(a: seq<LogEntry>, b: seq<LogEntry>)
    requires |a| == |b|
    requires forall i :: 0 <= i < |a| ==> (a[i].level == LogLevel.Error <==> b[i].level == LogLevel.Error)
    ensures CountErrors(Newest(a, ErrorWindow)) == CountErrors(Newest(b, ErrorWindow))
  {
    var wa, wb := Newest(a, ErrorWindow), Newest(b, ErrorWindow);
    var off := |a| - |wa|;
    assert wa == a[off..] && wb == b[off..];
    forall i | 0 <= i < |wa|
      ensures wa[i].level == LogLevel.Error <==> wb[i].level == LogLevel.Error
    {
      assert wa[i] == a[off + i] && wb[i] == b[off + i];
    }
    CountErrorsSeesOnlyErrorLevel(wa, wb);
  }

  /** `[...prev.slice(-19), m]`: the history after one more snapshot. It
      holds at most 20 entries, ends with the new snapshot, keeps the
      newest older entries in order, and drops the oldest only when full. */
  function PushHistory(h: seq<SystemMetrics>, m: SystemMetrics): (r: seq<SystemMetrics>)
    ensures 1 <= |r| <= HistoryCap && |r| <= |h| + 1
    ensures r[|r| - 1] == m
    ensures r[..|r| - 1] == h[|h| - (|r| - 1)..]
    ensures |h| < HistoryCap ==> r == h + [m]
    ensures |h| == HistoryCap ==> r == h[1..] + [m]
  {
    Newest(h, HistoryCap - 1) + [m]
  }

  /** The history after a run of snapshots, oldest first. */
  function Replay(h: seq<SystemMetrics>, ms: seq<SystemMetrics>): seq<SystemMetrics>
    decreases |ms|
  {
    if |ms| == 0 then h else Replay(PushHistory(h, ms[0]), ms[1..])
  }

  /** One push keeps the newest 20 of the old history and the new snapshot. */
  lemma PushIsNewest(h: seq<SystemMetrics>, m: SystemMetrics)
    ensures PushHistory(h, m) == Newest(h + [m], HistoryCap)
  {
    var r, n := PushHistory(h, m), Newest(h + [m], HistoryCap);
    assert |r| == |n|;
    forall i | 0 <= i < |r|
      ensures r[i] == n[i]
    {
      if i < |r| - 1 {
        assert r[i] == h[|h| - (|r| - 1) + i];
      }
    }
  }

  lemma NewestOfNewest<T>(a: seq<T>, b: seq<T>, k: nat)
    ensures Newest(Newest(a, k) + b, k) == Newest(a + b, k)
  {
    var x := Newest(a, k);
    var l := Newest(x + b, k);
    var r := Newest(a + b, k);
    assert |l| == |r|;
    forall i | 0 <= i < |l|
      ensures l[i] == r[i]
    {
      var j := |x + b| - |l| + i;
      var j' := |a + b| - |r| + i;
      if j < |x| {
        assert (x + b)[j] == x[j];
        assert x[j] == a[|a| - |x| + j];
      }
    }
  }

  /** After any run of snapshots the history holds exactly the newest 20
      of the old history followed by the run, in order. */
  lemma {:induction false} ReplayKeepsNewest(h: seq<SystemMetrics>, ms: seq<SystemMetrics>)
    requires |h| <= HistoryCap
    ensures Replay(h, ms) == Newest(h + ms, HistoryCap)
    decreases |ms|
  {
    if |ms| == 0 {
      assert h + ms == h;
    } else {
      var m, rest := ms[0], ms[1..];
      var h' := PushHistory(h, m);
      assert ms == [m] + rest;
      assert h + ms == (h + [m]) + rest;
      calc {
        Replay(h, ms);
        Replay(h', rest);
        { ReplayKeepsNewest(h', rest); }
        Newest(h' + rest, HistoryCap);
        { PushIsNewest(h, m); }
        Newest(Newest(h + [m], HistoryCap) + rest, HistoryCap);
        { NewestOfNewest(h + [m], rest, HistoryCap); }
        Newest((h + [m]) + rest, HistoryCap);
      }
    }
  }
}
