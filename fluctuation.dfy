/** One tick of the simulation: the per-pod load fluctuation applied to the
    whole fleet, and the periodic synthetic log generator. */
module Fluctuation {
  import opened Types
  import opened Catalog

  /** Seconds of uptime a running pod gains per tick. */
  const TickSeconds := 2

  /** The `Math.random()` values one pod consumes during a tick: the cpu
      and memory deltas, the spike check, the error check and the latency jitter. */
  datatype PodDraws = PodDraws(cpu: real, mem: real, spike: real, error: real, jitter: real)

  predicate DrawsOk(d: PodDraws)
  {
    InUnit(d.cpu) && InUnit(d.mem) && InUnit(d.spike) && InUnit(d.error) && InUnit(d.jitter)
  }

  /** The cpu delta: uniform in -4..5, plus 30 on a spike (about 5% of ticks). */
  function CpuChange(d: PodDraws): (delta: int)
    ensures InUnit(d.cpu) ==>
      (d.spike > 0.95 ==> 26 <= delta <= 35) && (d.spike <= 0.95 ==> -4 <= delta <= 5)
  {
    (d.cpu * 10.0).Floor - 4 + (if d.spike > 0.95 then 30 else 0)
  }

  /** The memory delta: uniform in -5..14. */
  function MemChange(d: PodDraws): (delta: int)
    ensures InUnit(d.mem) ==> -5 <= delta <= 14
  {
    (d.mem * 20.0).Floor - 5
  }

  function Min(a: real, b: real): (m: real)
    ensures m <= a && m <= b && (m == a || m == b)
  {
    if a <= b then a else b
  }

  function Max(a: real, b: real): (m: real)
    ensures m >= a && m >= b && (m == a || m == b)
  {
    if a >= b then a else b
  }

  /** `Math.max(lo, Math.min(hi, x))`. */
  function Clamp(x: real, lo: real, hi: real): (r: real)
    requires lo <= hi
    ensures lo <= r <= hi
    ensures lo <= x <= hi ==> r == x
    ensures x < lo ==> r == lo
    ensures x > hi ==> r == hi
  {
    Max(lo, Min(hi, x))
  }

  /** The latency before jitter: 30 on premises, 15 in the cloud, plus a
      100 ms congestion penalty when the new cpu is above 80. */
  function BaseLatency(env: Environment, cpu: real): real
  {
    (if env == OnPrem then 30.0 else 15.0) + (if cpu > 80.0 then 100.0 else 0.0)
  }

  /** The fields a tick never touches. */
  predicate SameIdentity(p: Pod, q: Pod)
  {
    q.id == p.id && q.name == p.name && q.environment == p.environment
    && q.status == p.status && q.replicas == p.replicas
  }

  /** A pod after one tick, with the ERROR entry the tick may log for it. */
  datatype PodStep = PodStep(pod: Pod, log: Option<LogEntry>)

  const ThrashingMessage := "CPU Thrashing detected. Thread starvation."

  /** The cpu a running pod ends the tick with: the old load moved by the
      delta and clamped to a percentage. */
  function NewCpu(p: Pod, d: PodDraws): real
  {
    Clamp(p.cpuUsage + CpuChange(d) as real, 0.0, 100.0)
  }

  /** The memory floor: `Math.max(50, m)`. */
  function MemFloor(m: int): (r: int)
    ensures r >= 50 && r >= m && (r == m || r == 50)
  {
    if m >= 50 then m else 50
  }

  /** Whether the tick logs CPU thrashing for a pod: it is running, its new
      cpu is above 95, and the error draw is above 0.9. */
  predicate Overheats(p: Pod, d: PodDraws)
  {
    p.status == Running && NewCpu(p, d) > 95.0 && d.error > 0.9
  }

  /** The ERROR entry logged for an overheating pod. */
  function ThrashingLog(p: Pod, meta: LogMeta): LogEntry
  {
    NewLog(LogLevel.Error, p.name, ThrashingMessage, meta)
  }

  /** The per-pod tick transform. Non-running pods pass through unchanged;
      a running pod's cpu stays a percentage, its memory moves by -5..14
      but stays at least 50, it ages by one tick, and exactly one ERROR
      entry is logged for it when its new cpu is above 95 and the error
      draw is above 0.9, and none otherwise. */
  function TickPod(p: Pod, d: PodDraws, meta: LogMeta): (r: PodStep)
    ensures p.status != Running ==> r.pod == p && r.log.None?
    ensures p.status == Running ==>
      && SameIdentity(p, r.pod)
      && 0.0 <= r.pod.cpuUsage <= 100.0
      && r.pod.memoryUsage >= 50
      && r.pod.uptime == p.uptime + TickSeconds
    ensures p.status == Running && InUnit(d.mem) ==>
      MemFloor(p.memoryUsage - 5) <= r.pod.memoryUsage <= MemFloor(p.memoryUsage + 14)
    ensures p.status == Running && InUnit(d.jitter) ==>
      var base := BaseLatency(p.environment, r.pod.cpuUsage);
      base <= r.pod.latency < base + 10.0
    ensures p.status == Running ==> (r.log.Some? <==> r.pod.cpuUsage > 95.0 && d.error > 0.9)
    ensures r.log.Some? <==> Overheats(p, d)
    ensures r.log.Some? ==>
      && p.status == Running
      && r.pod.cpuUsage > 95.0
      && r.log.value == ThrashingLog(p, meta)
      && r.log.value.level == LogLevel.Error
      && r.log.value.service == p.name
  {
    if p.status != Running then PodStep(p, None)
    else
      var newCpu := NewCpu(p, d);
      var newMem := MemFloor(p.memoryUsage + MemChange(d));
      var log := if newCpu > 95.0 && d.error > 0.9 then Some(ThrashingLog(p, meta)) else None;
      var q := p.(cpuUsage := newCpu, memoryUsage := newMem,
                  latency := BaseLatency(p.environment, newCpu) + d.jitter * 10.0,
                  uptime := p.uptime + TickSeconds);
      PodStep(q, log)
  }

  /** How far one tick can move a running pod's cpu when it starts in range:
      down by at most 4, up by at most 35 (5 without a spike), never past the
      bounds; a spike raises it by at least 26, or to 100. */
  lemma CpuStepBounds(p: Pod, d: PodDraws, meta: LogMeta)
    requires p.status == Running && 0.0 <= p.cpuUsage <= 100.0 && InUnit(d.cpu)
    ensures var c := TickPod(p, d, meta).pod.cpuUsage;
      && Max(0.0, p.cpuUsage - 4.0) <= c <= Min(100.0, p.cpuUsage + 35.0)
      && (d.spike <= 0.95 ==> c <= Min(100.0, p.cpuUsage + 5.0))
      && (d.spike > 0.95 ==> Min(100.0, p.cpuUsage + 26.0) <= c)
  {
    var delta := CpuChange(d);
    assert -4 <= delta <= 35;
  }

  /** The number of overheating pods among the first |ds| of a fleet. */
  function CountOverheats(ps: seq<Pod>, ds: seq<PodDraws>): (n: nat)
    requires |ds| == |ps|
    ensures n <= |ps|
    decreases |ps|
  {
    if |ps| == 0 then 0
    else
      var last := |ps| - 1;
      CountOverheats(ps[..last], ds[..last]) + (if Overheats(ps[last], ds[last]) then 1 else 0)
  }

  /** No pod overheats exactly when the count is zero. */
  lemma {:induction false} CountOverheatsZero(ps: seq<Pod>, ds: seq<PodDraws>)
    requires |ds| == |ps|
    ensures CountOverheats(ps, ds) == 0 <==> forall i :: 0 <= i < |ps| ==> !Overheats(ps[i], ds[i])
    decreases |ps|
  {
    if |ps| > 0 {
      var last := |ps| - 1;
      CountOverheatsZero(ps[..last], ds[..last]);
      assert forall i :: 0 <= i < last ==> ps[..last][i] == ps[i] && ds[..last][i] == ds[i];
    }
  }

  /** The fleet after one tick, and the ERROR entries logged for it. The
      entry of the pod at position k receives `src(k)`. Exactly one entry
      is logged per overheating pod and none for any other pod, in pod order:
      the entry of an overheating pod sits after those of the overheating
      pods before it. */
  function TickFleet(ps: seq<Pod>, ds: seq<PodDraws>, src: IdSource): (r: Step)
    requires |ds| == |ps|
    ensures |r.pods| == |ps|
    ensures forall i :: 0 <= i < |ps| ==> r.pods[i] == TickPod(ps[i], ds[i], src(i)).pod
    ensures |r.logs| == CountOverheats(ps, ds)
    ensures forall e :: e in r.logs ==> e.level == LogLevel.Error
    decreases |ps|
  {
    if |ps| == 0 then Step([], [])
    else
      var last := |ps| - 1;
      var rest := TickFleet(ps[..last], ds[..last], src);
      var s := TickPod(ps[last], ds[last], src(last));
      assert |OptionToSeq(s.log)| == if Overheats(ps[last], ds[last]) then 1 else 0;
      Step(rest.pods + [s.pod], rest.logs + OptionToSeq(s.log))
  }

  /** Where each overheating pod's entry sits in the tick's log: after the
      entries of the overheating pods before it. So every overheating pod
      logs, once, and the entries follow pod order. */
  lemma {:induction false} TickFleetLogOrder(ps: seq<Pod>, ds: seq<PodDraws>, src: IdSource, i: nat)
    requires |ds| == |ps| && i < |ps| && Overheats(ps[i], ds[i])
    ensures var logs := TickFleet(ps, ds, src).logs;
      && CountOverheats(ps[..i], ds[..i]) < |logs|
      && logs[CountOverheats(ps[..i], ds[..i])] == ThrashingLog(ps[i], src(i))
    decreases |ps|
  {
    var last := |ps| - 1;
    var rest := TickFleet(ps[..last], ds[..last], src);
    var s := TickPod(ps[last], ds[last], src(last));
    assert TickFleet(ps, ds, src).logs == rest.logs + OptionToSeq(s.log);
    if i == last {
      assert ps[..i] == ps[..last] && ds[..i] == ds[..last];
    } else {
      assert ps[..last][..i] == ps[..i] && ds[..last][..i] == ds[..i];
      TickFleetLogOrder(ps[..last], ds[..last], src, i);
    }
  }

  /** Conversely, every entry of the tick's log is the thrashing entry of an
      overheating pod: a running pod whose new cpu is above 95. */
  lemma {:induction false} TickFleetLogsFromOverheats(ps: seq<Pod>, ds: seq<PodDraws>, src: IdSource, e: LogEntry)
    requires |ds| == |ps| && e in TickFleet(ps, ds, src).logs
    ensures exists i :: 0 <= i < |ps| && Overheats(ps[i], ds[i]) && e == ThrashingLog(ps[i], src(i))
    decreases |ps|
  {
    var last := |ps| - 1;
    var rest := TickFleet(ps[..last], ds[..last], src);
    var s := TickPod(ps[last], ds[last], src(last));
    assert TickFleet(ps, ds, src).logs == rest.logs + OptionToSeq(s.log);
    if e in rest.logs {
      TickFleetLogsFromOverheats(ps[..last], ds[..last], src, e);
      var i :| 0 <= i < last && Overheats(ps[..last][i], ds[..last][i]) && e == ThrashingLog(ps[..last][i], src(i));
      assert ps[..last][i] == ps[i] && ds[..last][i] == ds[i];
      assert Overheats(ps[i], ds[i]) && e == ThrashingLog(ps[i], src(i));
    } else {
      assert s.log.Some? && e == s.log.value;
      assert Overheats(ps[last], ds[last]) && e == ThrashingLog(ps[last], src(last));
    }
  }

  /** A tick keeps every pod's documented ranges and only ever writes
      Running and Migrating statuses. */
  lemma TickPreservesFleetOk(ps: seq<Pod>, ds: seq<PodDraws>, src: IdSource)
    requires |ds| == |ps| && FleetOk(ps)
    requires forall i :: 0 <= i < |ds| ==> DrawsOk(ds[i])
    ensures FleetOk(TickFleet(ps, ds, src).pods)
  {
    var r := TickFleet(ps, ds, src);
    forall i | 0 <= i < |ps|
      ensures PodOk(r.pods[i])
    {
      var s := TickPod(ps[i], ds[i], src(i));
      if ps[i].status == Running {
        assert BaseLatency(ps[i].environment, s.pod.cpuUsage) <= s.pod.latency;
      }
    }
  }

  /** A tick in which no running pod ends above 95% cpu logs nothing. */
  lemma {:induction false} QuietTickLogsNothing(ps: seq<Pod>, ds: seq<PodDraws>, src: IdSource)
    requires |ds| == |ps|
    requires forall i :: 0 <= i < |ps| && ps[i].status == Running ==> TickFleet(ps, ds, src).pods[i].cpuUsage <= 95.0
    ensures TickFleet(ps, ds, src).logs == []
  {
    var r := TickFleet(ps, ds, src);
    forall i | 0 <= i < |ps|
      ensures !Overheats(ps[i], ds[i])
    {
      var s := TickPod(ps[i], ds[i], src(i));
      assert r.pods[i] == s.pod;
    }
    CountOverheatsZero(ps, ds);
  }

  /** The message catalogue of the periodic generator: INFO and WARN only. */
  datatype Template = Template(level: LogLevel, message: string)

  const Templates: seq<Template> := [
    Template(Info, "Health check passed."),
    Template(Info, "Request processed successfully."),
    Template(Warn, "Response time > 200ms."),
    Template(Warn, "Connection pool reaching limit.")
  ]

  /** The `Math.random()` values the periodic generator consumes: whether
      to log at all (30%), which service, which template. */
  datatype LogDraws = LogDraws(gate: real, service: real, template: real)

  /** The periodic generator. It logs exactly when the gate draw is above
      0.7, and then only an INFO or WARN entry from a registered service. */
  function GenerateLog(d: LogDraws, meta: LogMeta): (r: Option<LogEntry>)
    requires InUnit(d.service) && InUnit(d.template)
    ensures r.Some? <==> d.gate > 0.7
    ensures r.Some? ==>
      && (r.value.level == Info || r.value.level == Warn)
      && r.value.service in MockServices
      && Template(r.value.level, r.value.message) in Templates
      && r.value.id == meta.id && r.value.timestamp == meta.timestamp
  {
    if d.gate > 0.7 then
      var service := MockServices[Pick(d.service, |MockServices|)];
      var t := Templates[Pick(d.template, |Templates|)];
      Some(NewLog(t.level, service, t.message, meta))
    else None
  }
}
