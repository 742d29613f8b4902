/** The operator commands: the two phases of a migration, scaling, and the
    translation of an external recommendation into one of them. Every
    command is applied, like the handlers it models, to each pod whose id
    matches, whatever that pod's status. */
module Commands {
  import opened Types
  import opened Catalog

  datatype Direction = Up | Down

  /** A command aimed at one pod id. */
  datatype Command =
    | StartMigration(to: Environment)
    | CompleteMigration(to: Environment)
    | ScaleReplicas(dir: Direction)

  /** The migration completion a started migration leaves scheduled. */
  datatype PendingMigration = PendingMigration(podId: string, to: Environment)

  function DirName(dir: Direction): string
  {
    if dir == Up then "UP" else "DOWN"
  }

  /** The new replica count: one more going up, one fewer but never below 1 going down. */
  function ScaledReplicas(r: int, dir: Direction): (n: int)
    ensures dir == Up ==> n == r + 1
    ensures dir == Down ==> n >= 1 && n <= (if r > 1 then r else 1) && (r > 1 ==> n == r - 1)
  {
    if dir == Up then r + 1 else if r - 1 >= 1 then r - 1 else 1
  }

  /** Load rebalancing: 70% of the load after scaling up, 130% after
      scaling down, capped at 100. */
  function ScaledCpu(c: real, dir: Direction): (n: real)
    ensures n <= 100.0
    ensures 0.0 <= c ==> 0.0 <= n
    ensures dir == Up && 0.0 <= c ==> n <= c
    ensures dir == Down && 0.0 <= c ==> c <= n || n == 100.0
    ensures dir == Up && 0.0 <= c <= 100.0 ==> n == 0.7 * c
    ensures dir == Down && 1.3 * c <= 100.0 ==> n == 1.3 * c
    ensures dir == Down && 1.3 * c > 100.0 ==> n == 100.0
  {
    var product := c * (if dir == Up then 0.7 else 1.3);
    if product <= 100.0 then product else 100.0
  }

  /** The load left after a completed migration: 10 less, but at least 10. */
  function ShedLoad(c: real): (n: real)
    ensures n >= 10.0
    ensures c >= 20.0 ==> n == c - 10.0
    ensures c < 20.0 ==> n == 10.0
    ensures c <= 100.0 ==> n <= 90.0
  {
    if c - 10.0 >= 10.0 then c - 10.0 else 10.0
  }

  /** What a command does to one matching pod. */
  function Apply(c: Command, p: Pod): (q: Pod)
    ensures q.id == p.id && q.name == p.name
    ensures q.memoryUsage == p.memoryUsage && q.latency == p.latency && q.uptime == p.uptime
    ensures PodOk(p) ==> PodOk(q)
    ensures c.StartMigration? ==> q == p.(status := Migrating)
    ensures c.CompleteMigration? ==>
      && q.status == Running && q.environment == c.to && q.replicas == p.replicas
      && q.cpuUsage == ShedLoad(p.cpuUsage)
    ensures c.ScaleReplicas? ==>
      && q.status == p.status && q.environment == p.environment
      && q.replicas == ScaledReplicas(p.replicas, c.dir) && q.cpuUsage == ScaledCpu(p.cpuUsage, c.dir)
      && (p.replicas >= 1 ==> q.replicas >= 1)
  {
    match c
    case StartMigration(_) => p.(status := Migrating)
    case CompleteMigration(to) => p.(status := Running, environment := to, cpuUsage := ShedLoad(p.cpuUsage))
    case ScaleReplicas(dir) =>
      p.(replicas := ScaledReplicas(p.replicas, dir), cpuUsage := ScaledCpu(p.cpuUsage, dir))
  }

  /** The service a command's log entries are attributed to. */
  function Service(c: Command): string
  {
    if c.ScaleReplicas? then "autoscaler" else "orchestrator"
  }

  /** The INFO message a command logs for a matching pod. */
  function Message(c: Command, p: Pod): string
  {
    match c
    case StartMigration(to) => "Initiating migration of " + p.name + " to " + EnvName(to)
    case CompleteMigration(to) => "Migration of " + p.name + " to " + EnvName(to) + " completed successfully."
    case ScaleReplicas(dir) =>
      "Scaling " + p.name + " " + DirName(dir) + " to " + IntToString(ScaledReplicas(p.replicas, dir)) + " replicas."
  }

  /** The INFO entry a command logs for a matching pod. */
  function CommandLog(c: Command, p: Pod, meta: LogMeta): (e: LogEntry)
    ensures e.level == Info && e.service == Service(c) && e.message == Message(c, p)
    ensures e.id == meta.id && e.timestamp == meta.timestamp
  {
    NewLog(Info, Service(c), Message(c, p), meta)
  }

  /** The number of pods carrying a given id. */
  function CountId(ps: seq<Pod>, podId: string): (n: nat)
    ensures n <= |ps|
  {
    if |ps| == 0 then 0
    else CountId(ps[..|ps| - 1], podId) + (if ps[|ps| - 1].id == podId then 1 else 0)
  }

  /** The count is zero exactly when no pod carries the id. */
  lemma {:induction false} CountIdZero(ps: seq<Pod>, podId: string)
    ensures CountId(ps, podId) == 0 <==> forall i :: 0 <= i < |ps| ==> ps[i].id != podId
    decreases |ps|
  {
    if |ps| > 0 {
      var last := |ps| - 1;
      CountIdZero(ps[..last], podId);
      assert forall i :: 0 <= i < last ==> ps[..last][i] == ps[i];
    }
  }

  /** The entries a command logs, one per pod carrying `podId`, in fleet
      order; the entry of the pod at position k receives `src(k)`. */
  function CommandLogs(ps: seq<Pod>, podId: string, c: Command, src: IdSource): (r: seq<LogEntry>)
    ensures |r| == CountId(ps, podId)
    ensures forall e :: e in r ==> e.level == Info && e.service == Service(c)
    decreases |ps|
  {
    if |ps| == 0 then []
    else
      var last := |ps| - 1;
      CommandLogs(ps[..last], podId, c, src)
        + (if ps[last].id == podId then [CommandLog(c, ps[last], src(last))] else [])
  }

  /** A command applied to the fleet: exactly the pods carrying `podId`
      change, each as `Apply` says, and one INFO entry is logged per
      changed pod. An unknown id changes nothing and logs nothing. */
  function RunCommand(ps: seq<Pod>, podId: string, c: Command, src: IdSource): (r: Step)
    ensures |r.pods| == |ps|
    ensures forall i :: 0 <= i < |ps| ==>
      r.pods[i] == (if ps[i].id == podId then Apply(c, ps[i]) else ps[i])
    ensures |r.logs| == CountId(ps, podId)
    ensures forall e :: e in r.logs ==> e.level == Info && e.service == Service(c)
  {
    Step(seq(|ps|, i requires 0 <= i < |ps| => if ps[i].id == podId then Apply(c, ps[i]) else ps[i]),
         CommandLogs(ps, podId, c, src))
  }

  /** Where each matching pod's entry sits in the command's log: after the
      entries of the matching pods before it. So every matching pod logs,
      once, with a message naming it, and the entries follow fleet order. */
  lemma {:induction false} RunCommandLogOrder(ps: seq<Pod>, podId: string, c: Command, src: IdSource, i: nat)
    requires i < |ps| && ps[i].id == podId
    ensures var logs := RunCommand(ps, podId, c, src).logs;
      && CountId(ps[..i], podId) < |logs|
      && logs[CountId(ps[..i], podId)] == CommandLog(c, ps[i], src(i))
    decreases |ps|
  {
    var last := |ps| - 1;
    var rest := CommandLogs(ps[..last], podId, c, src);
    var logs := CommandLogs(ps, podId, c, src);
    if i == last {
      assert logs == rest + [CommandLog(c, ps[last], src(last))];
      assert ps[..i] == ps[..last];
    } else {
      assert logs[..|rest|] == rest;
      assert ps[..last][..i] == ps[..i];
      RunCommandLogOrder(ps[..last], podId, c, src, i);
    }
  }

  /** Conversely, every entry of the command's log is the entry of a pod
      carrying the id. */
  lemma {:induction false} RunCommandLogsFromMatches(ps: seq<Pod>, podId: string, c: Command, src: IdSource, e: LogEntry)
    requires e in RunCommand(ps, podId, c, src).logs
    ensures exists i :: 0 <= i < |ps| && ps[i].id == podId && e == CommandLog(c, ps[i], src(i))
    decreases |ps|
  {
    var last := |ps| - 1;
    var rest := CommandLogs(ps[..last], podId, c, src);
    var tail := if ps[last].id == podId then [CommandLog(c, ps[last], src(last))] else [];
    assert CommandLogs(ps, podId, c, src) == rest + tail;
    if e in rest {
      RunCommandLogsFromMatches(ps[..last], podId, c, src, e);
      assert forall j :: 0 <= j < last ==> ps[..last][j] == ps[j];
    } else {
      assert e in tail;
    }
  }

  /** An id no pod carries leaves the fleet and the log untouched. */
  lemma UnknownIdIsNoOp(ps: seq<Pod>, podId: string, c: Command, src: IdSource)
    requires forall i :: 0 <= i < |ps| ==> ps[i].id != podId
    ensures RunCommand(ps, podId, c, src) == Step(ps, [])
  {
    var r := RunCommand(ps, podId, c, src);
    CountIdZero(ps, podId);
    assert r.pods == ps;
  }

  /** Every command keeps the documented pod ranges across the fleet. */
  lemma RunCommandPreservesFleetOk(ps: seq<Pod>, podId: string, c: Command, src: IdSource)
    requires FleetOk(ps)
    ensures FleetOk(RunCommand(ps, podId, c, src).pods)
  {
  }

  /** Scaling up and then down returns every pod's replica count to what
      it was, as long as it was at least 1. */
  lemma ScaleUpThenDownRestoresReplicas(ps: seq<Pod>, podId: string, src1: IdSource, src2: IdSource)
    requires forall i :: 0 <= i < |ps| ==> ps[i].replicas >= 1
    ensures var up := RunCommand(ps, podId, ScaleReplicas(Up), src1).pods;
      var down := RunCommand(up, podId, ScaleReplicas(Down), src2).pods;
      |down| == |ps| && forall i :: 0 <= i < |ps| ==> down[i].replicas == ps[i].replicas
  {
    var up := RunCommand(ps, podId, ScaleReplicas(Up), src1).pods;
    var down := RunCommand(up, podId, ScaleReplicas(Down), src2).pods;
    forall i | 0 <= i < |ps|
      ensures down[i].replicas == ps[i].replicas
    {
      var r := ps[i].replicas;
      assert up[i].replicas == (if ps[i].id == podId then r + 1 else r) && up[i].id == ps[i].id;
    }
  }

  /** Scaling down and then up does not restore a single replica: the floor
      at 1 makes the pair a round trip in one direction only. */
  lemma ScaleDownThenUpFromOne(p: Pod)
    requires p.replicas == 1
    ensures Apply(ScaleReplicas(Up), Apply(ScaleReplicas(Down), p)).replicas == 2
  {
  }

  /** Scaling up and then down does not restore the load: a cpu in range
      ends at 91% of its value, since 0.7 * 1.3 is 0.91 and never reaches the cap. */
  lemma ScaleUpThenDownCpu(p: Pod)
    requires 0.0 <= p.cpuUsage <= 100.0
    ensures Apply(ScaleReplicas(Down), Apply(ScaleReplicas(Up), p)).cpuUsage == 0.91 * p.cpuUsage
  {
    var up := Apply(ScaleReplicas(Up), p);
    assert up.cpuUsage == 0.7 * p.cpuUsage;
  }

  /** The two phases of a migration together: the pod ends Running in the
      target environment with 10 less load (at least 10), its replicas,
      memory, latency and uptime unchanged; other pods are untouched. */
  lemma MigrationRoundTrip(ps: seq<Pod>, podId: string, to: Environment, src1: IdSource, src2: IdSource)
    ensures var mid := RunCommand(ps, podId, StartMigration(to), src1).pods;
      var done := RunCommand(mid, podId, CompleteMigration(to), src2).pods;
      && |done| == |ps|
      && forall i :: 0 <= i < |ps| ==>
        if ps[i].id == podId then
          done[i] == ps[i].(status := Running, environment := to, cpuUsage := ShedLoad(ps[i].cpuUsage))
        else done[i] == ps[i]
  {
    var mid := RunCommand(ps, podId, StartMigration(to), src1).pods;
    var done := RunCommand(mid, podId, CompleteMigration(to), src2).pods;
    forall i | 0 <= i < |ps| && ps[i].id == podId
      ensures done[i] == ps[i].(status := Running, environment := to, cpuUsage := ShedLoad(ps[i].cpuUsage))
    {
      assert mid[i] == ps[i].(status := Migrating);
    }
  }

  /** The completion phase does not look at the status: it also moves a pod
      that is Running, shedding load again. */
  lemma CompletionIgnoresStatus(p: Pod, to: Environment)
    requires p.status == Running && p.cpuUsage >= 20.0
    ensures Apply(CompleteMigration(to), p).cpuUsage == p.cpuUsage - 10.0
    ensures Apply(CompleteMigration(to), p).environment == to
  {
  }

  /** The first pod carrying `podId`, as `Array.prototype.find` returns it. */
  function FindPod(ps: seq<Pod>, podId: string): (r: Option<nat>)
    ensures r.None? <==> forall i :: 0 <= i < |ps| ==> ps[i].id != podId
    ensures r.Some? ==>
      r.value < |ps| && ps[r.value].id == podId
      && forall j :: 0 <= j < r.value ==> ps[j].id != podId
    decreases |ps|
  {
    if |ps| == 0 then None
    else if ps[0].id == podId then Some(0)
    else
      match FindPod(ps[1..], podId)
      case None => None
      case Some(k) => Some(k + 1)
  }

  /** A recommendation names a pod only when its target id is present and
      not the empty string, which JavaScript treats as false. */
  predicate HasTarget(rec: AIRecommendation)
  {
    rec.targetPodId.Some? && rec.targetPodId.value != ""
  }

  /** What applying a recommendation amounts to. */
  datatype Intent = Ignore | MigrateTo(podId: string, to: Environment) | ScaleUp(podId: string)

  /** MIGRATE with a target that some pod carries toggles that pod to the
      other environment; SCALE with a target scales up (whether or not
      the pod exists); everything else is ignored. The recommendation's
      own `targetEnvironment` plays no part. */
  function Dispatch(rec: AIRecommendation, ps: seq<Pod>): (r: Intent)
    ensures r.MigrateTo? <==>
      rec.kind == Migrate && HasTarget(rec) && exists i :: 0 <= i < |ps| && ps[i].id == rec.targetPodId.value
    ensures r.MigrateTo? ==>
      && r.podId == rec.targetPodId.value
      && exists i :: (0 <= i < |ps| && ps[i].id == r.podId && r.to == Opposite(ps[i].environment)
                      && forall j :: 0 <= j < i ==> ps[j].id != r.podId)
    ensures r.ScaleUp? <==> rec.kind == Scale && HasTarget(rec)
    ensures r.ScaleUp? ==> r.podId == rec.targetPodId.value
    ensures rec.kind == Optimize || !HasTarget(rec) ==> r == Ignore
  {
    if rec.kind == Migrate && HasTarget(rec) then
      match FindPod(ps, rec.targetPodId.value)
      case Some(k) => MigrateTo(rec.targetPodId.value, Opposite(ps[k].environment))
      case None => Ignore
    else if rec.kind == Scale && HasTarget(rec) then
      ScaleUp(rec.targetPodId.value)
    else Ignore
  }

  /** The recommendation's target environment is never consulted. */
  lemma DispatchIgnoresTargetEnvironment(rec: AIRecommendation, e: Option<Environment>, ps: seq<Pod>)
    ensures Dispatch(rec.(targetEnvironment := e), ps) == Dispatch(rec, ps)
  {
  }

  /** The immediate effect of applying a recommendation, and the migration
      completion it leaves scheduled, if any. */
  datatype Applied = Applied(step: Step, pending: Option<PendingMigration>)

  function ApplyRecommendation(rec: AIRecommendation, ps: seq<Pod>, src: IdSource): (r: Applied)
    ensures |r.step.pods| == |ps|
    ensures r.pending.Some? <==> Dispatch(rec, ps).MigrateTo?
    ensures Dispatch(rec, ps) == Ignore ==> r.step == Step(ps, [])
    ensures Dispatch(rec, ps).MigrateTo? ==>
      var d := Dispatch(rec, ps);
      && r.pending == Some(PendingMigration(d.podId, d.to))
      && r.step == RunCommand(ps, d.podId, StartMigration(d.to), src)
      && |r.step.logs| == CountId(ps, d.podId)
      && forall i :: 0 <= i < |ps| ==>
           r.step.pods[i] == if ps[i].id == d.podId then ps[i].(status := Migrating) else ps[i]
    ensures Dispatch(rec, ps).ScaleUp? ==>
      var d := Dispatch(rec, ps);
      && r.step == RunCommand(ps, d.podId, ScaleReplicas(Up), src)
      && |r.step.logs| == CountId(ps, d.podId)
      && forall i :: 0 <= i < |ps| ==>
           r.step.pods[i] == if ps[i].id == d.podId then Apply(ScaleReplicas(Up), ps[i]) else ps[i]
  {
    match Dispatch(rec, ps)
    case Ignore => Applied(Step(ps, []), None)
    case MigrateTo(podId, to) =>
      Applied(RunCommand(ps, podId, StartMigration(to), src), Some(PendingMigration(podId, to)))
    case ScaleUp(podId) => Applied(RunCommand(ps, podId, ScaleReplicas(Up), src), None)
  }

  /** OPTIMIZE, a missing target and an unknown target leave every pod
      unchanged and log nothing. */
  lemma InapplicableRecommendationIsNoOp(rec: AIRecommendation, ps: seq<Pod>, src: IdSource)
    requires rec.kind == Optimize || !HasTarget(rec)
      || forall i :: 0 <= i < |ps| ==> ps[i].id != rec.targetPodId.value
    ensures ApplyRecommendation(rec, ps, src).step == Step(ps, [])
    ensures ApplyRecommendation(rec, ps, src).pending == None
  {
    if rec.kind == Scale && HasTarget(rec) {
      UnknownIdIsNoOp(ps, rec.targetPodId.value, ScaleReplicas(Up), src);
    }
  }

  /** A MIGRATE recommendation for a known pod, once its completion fires,
      leaves the first pod with that id Running in the other environment. */
  lemma MigrateRecommendationToggles(rec: AIRecommendation, ps: seq<Pod>, k: nat, src1: IdSource, src2: IdSource)
    requires rec.kind == Migrate && HasTarget(rec)
    requires k < |ps| && ps[k].id == rec.targetPodId.value
    requires forall j :: 0 <= j < k ==> ps[j].id != rec.targetPodId.value
    ensures var a := ApplyRecommendation(rec, ps, src1);
      && a.pending.Some?
      && a.step.pods[k].status == Migrating
      && var done := RunCommand(a.step.pods, a.pending.value.podId, CompleteMigration(a.pending.value.to), src2).pods;
         done[k].status == Running && done[k].environment == Opposite(ps[k].environment)
  {
    var d := Dispatch(rec, ps);
    assert d.MigrateTo?;
    var i :| 0 <= i < |ps| && ps[i].id == d.podId && d.to == Opposite(ps[i].environment)
         && forall j :: 0 <= j < i ==> ps[j].id != d.podId;
    assert i == k;
    MigrationRoundTrip(ps, d.podId, d.to, src1, src2);
  }

  /** Nothing in the recommendation path checks the status: a SCALE
      recommendation also scales a pod that is still Migrating. */
  lemma ScaleRecommendationIgnoresStatus(rec: AIRecommendation, ps: seq<Pod>, k: nat, src: IdSource)
    requires rec.kind == Scale && HasTarget(rec)
    requires k < |ps| && ps[k].id == rec.targetPodId.value && ps[k].status == Migrating
    ensures var q := ApplyRecommendation(rec, ps, src).step.pods[k];
      q.status == Migrating && q.replicas == ps[k].replicas + 1
  {
  }
}
