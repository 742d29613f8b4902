/** The fleet the dashboard starts with: eight running pods named after
    the registered services, the first five on premises, the rest in the cloud. */
module FleetInit {
  import opened Types
  import opened Catalog
  import opened Metrics

  /** The number of pods created at start-up. */
  const InitialCount := 8

  /** The number of those pods placed on premises; the rest go to the cloud. */
  const OnPremCount := 5

  /** The identifier and the `Math.random()` values one initial pod consumes. */
  datatype InitDraws = InitDraws(id: string, cpu: real, mem: real, latency: real)

  predicate InitDrawsOk(d: InitDraws)
  {
    InUnit(d.cpu) && InUnit(d.mem) && InUnit(d.latency)
  }

  /** The pod created at position i: named `<service>-<i>` after the
      services in turn, running, with one replica and no uptime; its cpu is
      a whole percentage in 10..49, its memory in 128..627, its latency a
      whole number in 10..59. */
  function InitialPod(i: nat, d: InitDraws): (p: Pod)
    ensures p.id == d.id
    ensures p.name == MockServices[i % |MockServices|] + "-" + IntToString(i)
    ensures p.environment == OnPrem <==> i < OnPremCount
    ensures p.status == Running && p.uptime == 0 && p.replicas == 1
    ensures InitDrawsOk(d) ==>
      && 10.0 <= p.cpuUsage <= 49.0
      && 128 <= p.memoryUsage <= 627
      && 10.0 <= p.latency <= 59.0
    ensures p.cpuUsage == p.cpuUsage.Floor as real && p.latency == p.latency.Floor as real
  {
    Pod(
      d.id,
      MockServices[i % |MockServices|] + "-" + IntToString(i),
      if i < OnPremCount then OnPrem else Cloud,
      Running,
      ((d.cpu * 40.0).Floor + 10) as real,
      (d.mem * 500.0).Floor + 128,
      ((d.latency * 50.0).Floor + 10) as real,
      0,
      1)
  }

  /** The initial fleet, one pod per position. */
  function InitialFleet(ds: seq<InitDraws>): (r: seq<Pod>)
    requires |ds| == InitialCount
    ensures |r| == InitialCount
    ensures forall i :: 0 <= i < |r| ==> r[i] == InitialPod(i, ds[i])
  {
    seq(InitialCount, i requires 0 <= i < InitialCount => InitialPod(i, ds[i]))
  }

  /** The initial fleet satisfies every documented pod range. */
  lemma InitialFleetOk(ds: seq<InitDraws>)
    requires |ds| == InitialCount
    requires forall i :: 0 <= i < |ds| ==> InitDrawsOk(ds[i])
    ensures FleetOk(InitialFleet(ds))
  {
    var r := InitialFleet(ds);
    forall i | 0 <= i < |r|
      ensures PodOk(r[i])
    {
      assert r[i] == InitialPod(i, ds[i]);
    }
  }

  /** Among the first k pods of a fleet whose pods below `cut` are exactly
      the on-premises ones, min(k, cut) are on premises and the rest in the cloud. */
  lemma {:induction false} PrefixSplit(ps: seq<Pod>, cut: nat, k: nat)
    requires k <= |ps|
    requires forall i :: 0 <= i < |ps| ==> (ps[i].environment == OnPrem <==> i < cut)
    ensures |InEnvironment(ps[..k], OnPrem)| == if k <= cut then k else cut
    ensures |InEnvironment(ps[..k], Cloud)| == if k <= cut then 0 else k - cut
    decreases k
  {
    if k > 0 {
      PrefixSplit(ps, cut, k - 1);
      assert ps[..k][..k - 1] == ps[..k - 1];
    }
  }

  /** The initial fleet puts five pods on premises and three in the cloud. */
  lemma InitialSplit(ds: seq<InitDraws>)
    requires |ds| == InitialCount
    ensures |InEnvironment(InitialFleet(ds), OnPrem)| == OnPremCount
    ensures |InEnvironment(InitialFleet(ds), Cloud)| == InitialCount - OnPremCount
  {
    var r := InitialFleet(ds);
    PrefixSplit(r, OnPremCount, InitialCount);
    assert r[..InitialCount] == r;
  }
}
