/** The data shapes of the dashboard: environments, pods, log entries,
    metric snapshots and the recommendations returned by the external
    analysis service. */
module Types {

  datatype Option<T> = None | Some(value: T)

  /** Where a pod runs. There are exactly two environments. */
  datatype Environment = OnPrem | Cloud

  /** The four pod states. The engine itself only ever writes Running and Migrating. */
  datatype PodStatus = Running | Pending | Error | Migrating

  /** A simulated workload unit. `cpuUsage` is documented as a percentage
      in 0..100; it becomes fractional once a pod has been scaled. */
  datatype Pod = Pod(
    id: string,
    name: string,
    environment: Environment,
    status: PodStatus,
    cpuUsage: real,
    memoryUsage: int,
    latency: real,
    uptime: int,
    replicas: int)

  datatype SystemMetrics = SystemMetrics(
    timestamp: string,
    totalCpu: real,
    totalMemory: int,
    avgLatency: real,
    activePods: int,
    errorRate: real,
    onPremLoad: real,
    cloudLoad: real)

  datatype LogLevel = Info | Warn | Error | Critical

  datatype LogEntry = LogEntry(
    id: string,
    timestamp: string,
    level: LogLevel,
    service: string,
    message: string)

  datatype RecommendationType = Scale | Migrate | Optimize

  /** A recommendation produced outside the engine. `targetPodId` and
      `targetEnvironment` are optional. */
  datatype AIRecommendation = AIRecommendation(
    id: string,
    kind: RecommendationType,
    title: string,
    description: string,
    impact: string,
    confidence: real,
    targetPodId: Option<string>,
    targetEnvironment: Option<Environment>)

  /** The environment a pod is toggled to by a migration; total because
      there are only two environments. */
  function Opposite(e: Environment): (r: Environment)
    ensures r != e
  {
    if e == OnPrem then Cloud else OnPrem
  }

  /** Toggling twice returns to the start, and the toggle is the only
      environment different from the current one. */
  lemma OppositeInvolutive(e: Environment, f: Environment)
    ensures Opposite(Opposite(e)) == e
    ensures f != e ==> f == Opposite(e)
  {
  }

  /** The spelling of an environment in log messages. */
  function EnvName(e: Environment): string
  {
    if e == OnPrem then "ON_PREM" else "CLOUD"
  }

  /** The documented ranges of a pod's fields, together with the fact that
      the engine only produces Running and Migrating pods. */
  predicate PodOk(p: Pod)
  {
    && 0.0 <= p.cpuUsage <= 100.0
    && p.memoryUsage >= 50
    && p.latency >= 0.0
    && p.uptime >= 0
    && p.replicas >= 1
    && (p.status == Running || p.status == Migrating)
  }

  predicate FleetOk(ps: seq<Pod>)
  {
    forall i :: 0 <= i < |ps| ==> PodOk(ps[i])
  }
}
