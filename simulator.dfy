/** The dashboard's component state and the handlers that replace it: the
    fleet, the append-only event log, the bounded metrics history and the
    tick counter. Each handler replaces the state by what the pure
    definitions of the other modules compute, and keeps the fleet within its
    documented ranges and the history within its cap. */
module Simulator {
  import opened Types
  import opened Catalog
  import opened Fluctuation
  import opened Commands
  import opened Metrics
  import opened FleetInit

  class Simulator {
    var pods: seq<Pod>
    var logs: seq<LogEntry>
    var history: seq<SystemMetrics>
    var ticker: nat

    /** Every pod within its documented ranges, and at most 20 snapshots kept. */
    ghost predicate Valid()
      reads this
    {
      FleetOk(pods) && |history| <= HistoryCap
    }

    /** The state before the start-up effect has run: all empty. */
    constructor()
      ensures Valid()
      ensures pods == [] && logs == [] && history == [] && ticker == 0
    {
      pods, logs, history, ticker := [], [], [], 0;
    }

    /** The start-up effect: the fleet becomes the initial eight pods. */
    method Initialize(ds: seq<InitDraws>)
      requires |ds| == InitialCount
      requires forall i :: 0 <= i < |ds| ==> InitDrawsOk(ds[i])
      requires Valid()
      modifies this
      ensures Valid()
      ensures pods == InitialFleet(ds)
      ensures logs == old(logs) && history == old(history) && ticker == old(ticker)
    {
      InitialFleetOk(ds);
      pods := InitialFleet(ds);
    }

    /** `addLog`: one entry appended at the end of the log. */
    method AddLog(level: LogLevel, service: string, message: string, meta: LogMeta)
      requires Valid()
      modifies this
      ensures Valid()
      ensures logs == old(logs) + [NewLog(level, service, message, meta)]
      ensures pods == old(pods) && history == old(history) && ticker == old(ticker)
    {
      logs := logs + [NewLog(level, service, message, meta)];
    }

    /** One interval tick: the counter advances, every pod fluctuates, the
        ERROR entries of the tick are appended in pod order, and the periodic
        generator may append one more entry. */
    method Tick(ds: seq<PodDraws>, gen: LogDraws, src: IdSource)
      requires Valid()
      requires |ds| == |pods|
      requires forall i :: 0 <= i < |ds| ==> DrawsOk(ds[i])
      requires InUnit(gen.service) && InUnit(gen.template)
      modifies this
      ensures Valid()
      ensures ticker == old(ticker) + 1
      ensures pods == TickFleet(old(pods), ds, src).pods
      ensures logs == old(logs) + TickFleet(old(pods), ds, src).logs
                      + OptionToSeq(GenerateLog(gen, src(|old(pods)|)))
      ensures history == old(history)
    {
      ticker := ticker + 1;
      var step := TickFleet(pods, ds, src);
      TickPreservesFleetOk(pods, ds, src);
      var generated := GenerateLog(gen, src(|pods|));
      pods := step.pods;
      logs := logs + step.logs;
      if generated.Some? {
        AddLog(generated.value.level, generated.value.service, generated.value.message,
               LogMeta(generated.value.id, generated.value.timestamp));
      }
    }

    /** The history updater: the snapshot becomes the newest entry, and
        the oldest is dropped once 20 are kept. */
    method AppendHistory(m: SystemMetrics)
      requires Valid()
      modifies this
      ensures Valid()
      ensures history == PushHistory(old(history), m)
      ensures pods == old(pods) && logs == old(logs) && ticker == old(ticker)
    {
      history := PushHistory(history, m);
    }

    /** The memoised aggregate: the snapshot of the current fleet and log,
        appended to the history. */
    method RecordMetrics(timestamp: string) returns (m: SystemMetrics)
      requires Valid()
      modifies this
      ensures Valid()
      ensures m == Aggregate(pods, logs, timestamp)
      ensures history == PushHistory(old(history), m)
      ensures pods == old(pods) && logs == old(logs) && ticker == old(ticker)
    {
      m := Aggregate(pods, logs, timestamp);
      AppendHistory(m);
    }

    /** Applies one command to every pod carrying `podId` and appends its log entries. */
    method Run(podId: string, c: Command, src: IdSource)
      requires Valid()
      modifies this
      ensures Valid()
      ensures pods == RunCommand(old(pods), podId, c, src).pods
      ensures logs == old(logs) + RunCommand(old(pods), podId, c, src).logs
      ensures history == old(history) && ticker == old(ticker)
    {
      var step := RunCommand(pods, podId, c, src);
      RunCommandPreservesFleetOk(pods, podId, c, src);
      pods := step.pods;
      logs := logs + step.logs;
    }

    /** The first phase of `handleMigrate`: the pod is marked Migrating and
        its completion is left scheduled. */
    method MigrateStart(podId: string, to: Environment, src: IdSource) returns (task: PendingMigration)
      requires Valid()
      modifies this
      ensures Valid()
      ensures pods == RunCommand(old(pods), podId, StartMigration(to), src).pods
      ensures logs == old(logs) + RunCommand(old(pods), podId, StartMigration(to), src).logs
      ensures history == old(history) && ticker == old(ticker)
      ensures task == PendingMigration(podId, to)
    {
      Run(podId, StartMigration(to), src);
      task := PendingMigration(podId, to);
    }

    /** The deferred second phase of `handleMigrate`, run against the fleet
        as it is when the delay expires. */
    method MigrateComplete(task: PendingMigration, src: IdSource)
      requires Valid()
      modifies this
      ensures Valid()
      ensures pods == RunCommand(old(pods), task.podId, CompleteMigration(task.to), src).pods
      ensures logs == old(logs) + RunCommand(old(pods), task.podId, CompleteMigration(task.to), src).logs
      ensures history == old(history) && ticker == old(ticker)
    {
      Run(task.podId, CompleteMigration(task.to), src);
    }

    /** `handleScale`. */
    method Scale(podId: string, dir: Direction, src: IdSource)
      requires Valid()
      modifies this
      ensures Valid()
      ensures pods == RunCommand(old(pods), podId, ScaleReplicas(dir), src).pods
      ensures logs == old(logs) + RunCommand(old(pods), podId, ScaleReplicas(dir), src).logs
      ensures history == old(history) && ticker == old(ticker)
    {
      Run(podId, ScaleReplicas(dir), src);
    }

    /** `handleApplyRecommendation`: resolves the recommendation against
        the current fleet and starts a migration or scales up; returns the
        migration completion left scheduled, if any. */
    method ApplyRecommendation(rec: AIRecommendation, src: IdSource) returns (pending: Option<PendingMigration>)
      requires Valid()
      modifies this
      ensures Valid()
      ensures pods == Commands.ApplyRecommendation(rec, old(pods), src).step.pods
      ensures logs == old(logs) + Commands.ApplyRecommendation(rec, old(pods), src).step.logs
      ensures pending == Commands.ApplyRecommendation(rec, old(pods), src).pending
      ensures history == old(history) && ticker == old(ticker)
    {
      match Dispatch(rec, pods)
      case Ignore =>
        pending := None;
        assert logs == logs + [];
      case MigrateTo(podId, to) =>
        var task := MigrateStart(podId, to, src);
        pending := Some(task);
      case ScaleUp(podId) =>
        Scale(podId, Up, src);
        pending := None;
    }
  }
}
