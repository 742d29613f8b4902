# Hybrid-cloud dashboard simulation engine, modelled in Dafny

The dashboard keeps a simulated fleet of pods split between an on-premises
environment and a cloud. It runs a fixed 2-second tick that makes their load
fluctuate and keeps an append-only event log. It derives a system-wide
metrics snapshot from the fleet and the log, and keeps a rolling history of
the last 20 snapshots. Operators can migrate a pod to the other environment
in two phases (start now, complete after a delay), scale it up, or apply a
recommendation produced by an external analysis service. The scaling handler
also accepts a scale-down, but no caller issues one: the workload view and
the recommendation handler both pass UP (components/Workloads.tsx:104,
App.tsx:186). The model keeps both directions of the handler.

This project models that engine (`App.tsx`) and the data shapes it uses
(`types.ts`). Modules:

- `Types` (types.dfy): pods, metrics snapshots, log entries and
  recommendations as datatypes; the documented pod ranges (`PodOk`,
  `FleetOk`); the environment toggle.
- `Catalog` (catalog.dfy): the service registry, the shape of an appended
  log entry, the random draws, and decimal rendering for messages.
- `Fluctuation` (fluctuation.dfy): the per-pod tick transform, the tick over
  the whole fleet, and the periodic log generator.
- `Commands` (commands.dfy): both phases of a migration, scaling, and
  recommendation dispatch. Each is a command applied to every pod carrying
  the target id.
- `Metrics` (metrics.dfy): the aggregate snapshot (means with an `n || 1`
  divisor, per-environment loads, the error rate over the last ten entries)
  and the bounded history.
- `FleetInit` (fleet_init.dfy): the eight initial pods.
- `Simulator` (simulator.dfy): the component state as a class. It has the
  fields `pods`, `logs`, `history` and `ticker`, one method per handler, and
  the invariant `Valid`. `Valid` says every pod is within its documented
  ranges and is Running or Migrating, and the history holds at most 20
  snapshots. Each method's postcondition ties the new state to the pure
  definitions above, and each method preserves `Valid`.

The handlers check no pod status (App.tsx:141-147, 151-155, 162-175):

- `handleMigrate` and `handleScale` act on the matching pod whatever its
  status.
- The deferred completion does not check that the pod is still Migrating.
- A recommendation can therefore scale, or migrate again, a pod that is
  mid-migration.

The model follows the handlers. The lemmas `Commands.CompletionIgnoresStatus` and
`Commands.ScaleRecommendationIgnoresStatus` state the consequences.

Random draws, generated identifiers and clock readings are parameters:

- `PodDraws`, `LogDraws` and `InitDraws` carry values of `Math.random()`, each in [0, 1).
  `InitDraws` also carries the `uuid()` identifier of the pod it builds.
- An `IdSource` gives the identifier and timestamp of each log entry a handler
  appends. The entry for the pod at position k receives `src(k)`. The
  periodic generator's entry receives `src(|pods|)`.
- The snapshot timestamp is a parameter of `RecordMetrics`.

## Model

| member | source | states |
|---|---|---|
| `Types.Opposite` | App.tsx:183 | the environment a recommended migration moves a pod to is always the other of the two environments |
| `Types.OppositeInvolutive` | types.ts:1 | with exactly two environments the toggle is an involution, and it is the only environment different from the current one |
| `Catalog.Pick` | App.tsx:80 | `Math.floor(Math.random() * n)` is an index below n |
| `Fluctuation.CpuChange` | App.tsx:51-55 | the cpu delta lies in -4..5, or in 26..35 on a spike (spike draw above 0.95) |
| `Fluctuation.MemChange` | App.tsx:52 | the memory delta lies in -5..14 |
| `Fluctuation.Clamp` | App.tsx:57 | `Math.max(lo, Math.min(hi, x))` lies in [lo, hi], is x inside the range and the nearer bound outside it |
| `Fluctuation.TickPod` | App.tsx:47-76 | a non-running pod is returned unchanged with no log. A running pod keeps id, name, environment, status and replicas. Its cpu ends in [0, 100], its uptime is 2 higher, and its memory moves by -5..14 but stays at least 50. Its latency lies in [base, base + 10), where base is 30 on premises or 15 in the cloud, plus 100 above 80% cpu. The thrashing ERROR entry from the pod's service is logged exactly when the pod is running, its new cpu is above 95 and the error draw is above 0.9 |
| `Fluctuation.CpuStepBounds` | App.tsx:51-57 | from a cpu in range, one tick moves it down by at most 4 and up by at most 35, or by at most 5 without a spike, clamped to [0, 100]; a spike (spike draw above 0.95) raises it by at least 26, or to 100 |
| `Fluctuation.CountOverheats` | App.tsx:65 | the number of pods that log thrashing is at most the fleet size |
| `Fluctuation.CountOverheatsZero` | App.tsx:65 | that number is zero exactly when no pod is running, above 95% cpu after the tick and unlucky on the error draw |
| `Fluctuation.TickFleet` | App.tsx:47-76 | the fleet keeps its length and order, and each pod becomes its own tick transform. As many entries are logged as pods overheat (running, new cpu above 95, error draw above 0.9), all ERROR |
| `Fluctuation.TickFleetLogOrder` | App.tsx:47-76 | every overheating pod's entry is in the tick's log, right after the entries of the overheating pods before it, so the entries follow pod order, one per overheating pod |
| `Fluctuation.TickFleetLogsFromOverheats` | App.tsx:65-66 | every entry of the tick's log is the thrashing entry, from its own service, of an overheating pod |
| `Fluctuation.TickPreservesFleetOk` | App.tsx:47-76 | a tick keeps every pod within its documented ranges |
| `Fluctuation.QuietTickLogsNothing` | App.tsx:65-67 | a tick in which no running pod ends above 95% cpu logs nothing |
| `Fluctuation.GenerateLog` | App.tsx:78-89 | the generator logs exactly when its gate draw is above 0.7. The entry it logs comes from a registered service, its level and message are one of the four templates (so it is INFO or WARN), and it carries the identifier and timestamp it was given |
| `Commands.ScaledReplicas` | App.tsx:164 | scaling up adds one replica; scaling down removes one but never goes below 1 |
| `Commands.ScaledCpu` | App.tsx:167-171 | the rebalanced cpu is 0.7 times the load after scaling up (for a load in [0, 100]), and 1.3 times the load after scaling down, capped at 100; so it is at most 100, non-negative for a non-negative load, no higher after scaling up, and no lower (unless capped) after scaling down |
| `Commands.ShedLoad` | App.tsx:154 | after a completed migration the cpu is 10 lower when it was at least 20, and 10 otherwise; so it is at least 10, and at most 90 when it was a percentage |
| `Commands.Apply` | App.tsx:142-172 | per command, on one matching pod: migration start only sets Migrating; completion sets Running, the target environment and the shed load `ShedLoad`; scaling sets the replicas to `ScaledReplicas` and the cpu to `ScaledCpu` and changes nothing else. Identity, memory, latency and uptime are untouched, and the documented ranges are kept |
| `Commands.CountId` | App.tsx:141-147 | the number of pods carrying an id is at most the fleet size |
| `Commands.CountIdZero` | App.tsx:141-147 | the number of pods carrying an id is zero exactly when no pod carries it |
| `Commands.RunCommand` | App.tsx:141-147 | exactly the pods carrying the id change, each as the command says, whatever its status; other pods and the order are unchanged. One INFO entry from the command's service is logged per changed pod |
| `Commands.CommandLogs` | App.tsx:141-147 | a command logs one entry per pod carrying the id, all INFO from the command's service |
| `Commands.RunCommandLogOrder` | App.tsx:141-147 | the entry of each matching pod is in the command's log at the position given by the matching pods before it, and it is that pod's own message with that pod's identifier and timestamp; so the log follows fleet order |
| `Commands.RunCommandLogsFromMatches` | App.tsx:141-147 | every entry of a command's log is the entry of some pod carrying the id, with its message about that pod |
| `Commands.UnknownIdIsNoOp` | App.tsx:141-147 | an id no pod carries changes no pod and logs nothing |
| `Commands.RunCommandPreservesFleetOk` | App.tsx:140-176 | every command keeps every pod within its documented ranges |
| `Commands.ScaleUpThenDownRestoresReplicas` | App.tsx:164 | scaling up then down restores every replica count that was at least 1 |
| `Commands.ScaleUpThenDownCpu` | App.tsx:167-171 | scaling up then down leaves a load in [0, 100] at 0.91 of its value, so the load does not round-trip |
| `Commands.ScaleDownThenUpFromOne` | App.tsx:164 | down then up from a single replica gives 2: the floor at 1 makes the pair a round trip in one direction only |
| `Commands.MigrationRoundTrip` | App.tsx:140-159 | both phases together leave the matching pod Running in the target environment with shed load and everything else unchanged, and leave other pods untouched |
| `Commands.CompletionIgnoresStatus` | App.tsx:151-155 | the completion phase also moves a Running pod and sheds its load again |
| `Commands.FindPod` | App.tsx:181 | `find` returns the first position carrying the id, or nothing exactly when no pod carries it |
| `Commands.Dispatch` | App.tsx:178-188 | MIGRATE with a present, non-empty target that some pod carries means toggling the first such pod's environment. SCALE with a present, non-empty target means scaling up. Anything else, OPTIMIZE included, is ignored |
| `Commands.DispatchIgnoresTargetEnvironment` | types.ts:42 | the recommendation's own target environment is never consulted |
| `Commands.ApplyRecommendation` | App.tsx:178-188 | an ignored recommendation changes nothing and logs nothing. A migration is the migration-start command on the target id: it marks exactly the pods carrying that id Migrating, logs once per such pod, and leaves that completion pending. A scale-up is the scale-up command on the target id and scales exactly those pods. A completion is pending only for a migration |
| `Commands.InapplicableRecommendationIsNoOp` | App.tsx:178-188 | OPTIMIZE, a missing or empty target, and an unknown target change no pod, log nothing and leave nothing pending |
| `Commands.MigrateRecommendationToggles` | App.tsx:179-184 | a MIGRATE recommendation for a known pod marks it Migrating and, once completed, leaves it Running in the other environment |
| `Commands.ScaleRecommendationIgnoresStatus` | App.tsx:185-186 | a SCALE recommendation also scales a pod that is mid-migration |
| `Metrics.InEnvironment` | App.tsx:103-104 | the pods of one environment number at most the fleet's and all lie in that environment |
| `Metrics.InEnvironmentMembers` | App.tsx:103-104 | the filtered pods are exactly the fleet's pods of that environment |
| `Metrics.Newest` | App.tsx:109 | `slice(-k)` is the last k elements, or all of them when fewer |
| `Metrics.CountErrors` | App.tsx:109 | the ERROR count never exceeds the number of entries |
| `Metrics.Aggregate` | App.tsx:97-121 | the snapshot counts the pods and carries the timestamp. With no pods every mean is 0 and memory is 0. The error rate lies in [0, 100] |
| `Metrics.SumCpuBounds` | App.tsx:98 | a sum of percentages lies between 0 and 100 per pod |
| `Metrics.SumLatencyNonNegative` | App.tsx:100 | a sum of non-negative latencies is non-negative |
| `Metrics.SumMemoryAtLeast` | App.tsx:99 | total memory is at least 50 per pod when every pod has at least 50 |
| `Metrics.MeanBounds` | App.tsx:98 | a mean whose divisor is the count, or 1 when there are none, of a total in [0, hi·n] lies in [0, hi] |
| `Metrics.CpuMeanInRange` | App.tsx:98 | the mean cpu of pods with percentage loads is a percentage |
| `Metrics.EnvironmentLoadInRange` | App.tsx:105-106 | each environment's load is a percentage when every pod's cpu is |
| `Metrics.LatencyMeanNonNegative` | App.tsx:100 | the mean latency is non-negative |
| `Metrics.AggregateInRange` | App.tsx:97-121 | for a fleet within its documented ranges, totalCpu, onPremLoad and cloudLoad are percentages, avgLatency is non-negative, and totalMemory is at least 50 per active pod |
| `Metrics.EnvironmentsPartitionFleet` | App.tsx:103-104 | the two environments' pod counts and cpu sums add up to the fleet's |
| `Metrics.MeanTimesCount` | App.tsx:98 | a mean times its count gives back the total |
| `Metrics.PooledMean` | App.tsx:105-106 | the mean of two pooled groups, times the pooled count, is the count-weighted sum of the group means |
| `Metrics.PooledMeansPool` | App.tsx:98-106 | a snapshot whose fleet load is the pooled mean of two groups' totals and whose environment loads are the groups' means satisfies totalCpu times the pod count equals the count-weighted sum of onPremLoad and cloudLoad |
| `Metrics.PoolParts` | App.tsx:98-106 | totalCpu is the mean over both environments' pods pooled, and onPremLoad and cloudLoad are the means over each environment's own pods, counted by the environments' pod numbers |
| `Metrics.MeansPool` | App.tsx:98-106 | any snapshot whose loads are the fleet's three cpu means pools them |
| `Metrics.AggregatePoolsLoads` | App.tsx:97-121 | in the snapshot itself, the environments' pod counts add up to activePods, and totalCpu times activePods is onPremLoad times the on-premises count plus cloudLoad times the cloud count |
| `Metrics.TwoPodScenario` | App.tsx:98-106 | one on-premises pod at 90% and one cloud pod at 10% give loads of 90 and 10 and a fleet mean of 50 |
| `Metrics.AggregateTwoPods` | App.tsx:97-121 | the snapshot of one on-premises pod at 90% and one cloud pod at 10% has onPremLoad 90, cloudLoad 10, totalCpu 50, the two memories summed, the two latencies averaged, and two active pods |
| `Metrics.ErrorRateCounts` | App.tsx:109-110 | the error rate is 10 points per ERROR entry among the last ten entries, and lies in [0, 100] |
| `Metrics.CountErrorsZero` | App.tsx:109 | the count is zero exactly when no entry is ERROR |
| `Metrics.ErrorRateZeroIff` | App.tsx:109-110 | the error rate is 0 exactly when none of the last ten entries is ERROR |
| `Metrics.AggregateErrorRate` | App.tsx:97-121 | the snapshot's error rate is 10 points per ERROR entry among the last ten, and is 0 exactly when none of the last ten entries is ERROR |
| `Metrics.CountErrorsSeesOnlyErrorLevel` | App.tsx:109 | two windows with ERROR at the same positions count the same, whatever their other levels |
| `Metrics.WindowSeesOnlyErrorLevel` | App.tsx:109 | the last ten entries of two logs with ERROR at the same positions hold the same number of ERROR entries |
| `Metrics.ErrorRateSeesOnlyErrorLevel` | App.tsx:109-110 | the error rate ignores every level but ERROR, CRITICAL included |
| `Metrics.PushHistory` | App.tsx:124 | the new history holds 1 to 20 snapshots and ends with the new one. The older entries are the newest of the old history in order. The oldest is dropped only when 20 were kept |
| `Metrics.PushIsNewest` | App.tsx:124 | one append keeps the newest 20 of the old history followed by the new snapshot |
| `Metrics.NewestOfNewest` | App.tsx:124 | trimming to the newest k before appending and trimming again loses nothing |
| `Metrics.ReplayKeepsNewest` | App.tsx:124 | after any run of appends to a history of at most 20, it holds exactly the newest 20 of the old history followed by the run |
| `FleetInit.InitialPod` | App.tsx:28-36 | the pod at position i is named after the i-th service in turn and the position. It is on premises exactly for the first five positions, Running, with one replica and no uptime. Its cpu and latency are whole numbers. With draws in [0, 1), cpu is in 10..49, memory in 128..627 and latency in 10..59 |
| `FleetInit.InitialFleet` | App.tsx:27-37 | the initial fleet has eight pods, each built from its position |
| `FleetInit.InitialFleetOk` | App.tsx:27-37 | the initial fleet is within the documented ranges |
| `FleetInit.PrefixSplit` | App.tsx:30 | when the pods before a cut are exactly the on-premises ones, the first k pods split into min(k, cut) on premises and the rest in the cloud |
| `FleetInit.InitialSplit` | App.tsx:30 | the initial fleet puts five pods on premises and three in the cloud |
| `Simulator.Simulator.constructor` | App.tsx:19-22 | the state starts with no pods, logs or history and a zero counter |
| `Simulator.Simulator.Initialize` | App.tsx:25-39 | the start-up effect sets the fleet to the initial fleet and keeps the invariant |
| `Simulator.Simulator.AddLog` | App.tsx:130-137 | one entry is appended at the end of the log, and nothing else changes |
| `Simulator.Simulator.Tick` | App.tsx:43-91 | the counter advances and the fleet becomes the ticked fleet. The log grows at its end by the tick's ERROR entries in pod order, then the generator's entry if any. The history is unchanged and the invariant is kept |
| `Simulator.Simulator.AppendHistory` | App.tsx:124 | the history becomes the bounded append of the snapshot, and nothing else changes |
| `Simulator.Simulator.RecordMetrics` | App.tsx:97-127 | the snapshot is the aggregate of the current fleet and log and becomes the newest history entry |
| `Simulator.Simulator.Run` | App.tsx:141-175 | a command replaces the fleet by its effect and appends its entries; the invariant is kept |
| `Simulator.Simulator.MigrateStart` | App.tsx:140-149 | the first migration phase marks matching pods Migrating, logs one entry per pod, and returns the scheduled completion |
| `Simulator.Simulator.MigrateComplete` | App.tsx:150-158 | the deferred completion runs against the fleet as it is when it fires |
| `Simulator.Simulator.Scale` | App.tsx:161-176 | scaling replaces the fleet by the scaled fleet and appends one entry per matching pod |
| `Simulator.Simulator.ApplyRecommendation` | App.tsx:178-188 | applying a recommendation has exactly the effect of its dispatch on the current fleet and returns the completion left pending |

## Left out

- `Math.random()`, `uuid()` and `new Date()` are parameters, as listed above. Their distributions and the uniqueness of generated ids are not modelled. Commands apply to every pod carrying the id, as the `.map` over the fleet does.
- Timing is not modelled: `setInterval`, `setTimeout` and React's scheduling and batching of state updaters. The deferred completion is a separate method (`MigrateComplete`) the caller invokes with the pending migration.
- The order between a tick's ERROR entries and the generator's entry depends on when React runs the updaters. The model fixes pod order first, then the generator's entry.
- The history append runs whenever the fleet or log changes, not once per tick. The model has `RecordMetrics` for the caller to invoke and says nothing about how often it runs.
- `handleApplyRecommendation` resolves its target against the fleet of the last render, which can be older than the fleet its updater sees. The model resolves against the current fleet.
- JavaScript numbers are IEEE-754 doubles. The model uses exact `real` arithmetic for the 0.7 and 1.3 factors, the means and the error rate, and claims only the exact-arithmetic behaviour.
- Fluctuation.TickPod: the latency is stated to lie in [base, base + 10) rather than as base plus the jitter draw times 10. The band is weaker: it does not tie the latency to the jitter draw.
- Only the status guards that the handlers actually lack are described above. The disabled buttons in components/Workloads.tsx are not part of this model, nor is anything else under components/.
- services/geminiService.ts is not part of this model. Recommendations arrive as values of `AIRecommendation`.
- The `ticker` counter (App.tsx:22) is advanced on every tick and never read. The model advances it too.
