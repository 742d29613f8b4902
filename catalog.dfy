/** Shared pieces of the engine: the fixed service registry, the shape of
    a freshly appended log entry, the random draws the engine consumes, and
    the decimal rendering used in log messages and pod names. */
module Catalog {
  import opened Types

  /** The fixed registry of service names. */
  const MockServices: seq<string> :=
    ["payment-gateway", "auth-service", "inventory-db", "frontend-ui", "analytics-worker", "notification-queue"]

  /** The identifier and timestamp a new log entry receives. */
  datatype LogMeta = LogMeta(id: string, timestamp: string)

  /** Identifiers and timestamps for the log entries of one handler call:
      the entry produced for the pod at position k receives `src(k)`. */
  type IdSource = nat -> LogMeta

  /** A new fleet and the log entries appended while computing it, in order. */
  datatype Step = Step(pods: seq<Pod>, logs: seq<LogEntry>)

  /** The record appended by `addLog`. */
  function NewLog(level: LogLevel, service: string, message: string, meta: LogMeta): (e: LogEntry)
    ensures e.level == level && e.service == service && e.message == message
    ensures e.id == meta.id && e.timestamp == meta.timestamp
  {
    LogEntry(meta.id, meta.timestamp, level, service, message)
  }

  function OptionToSeq<T>(o: Option<T>): (s: seq<T>)
    ensures |s| <= 1
    ensures o.Some? ==> s == [o.value]
    ensures o.None? <==> s == []
  {
    if o.Some? then [o.value] else []
  }

  /** A value of `Math.random()`. */
  predicate InUnit(u: real)
  {
    0.0 <= u < 1.0
  }

  /** `Math.floor(u * n)`: a uniformly drawn index below n. */
  function Pick(u: real, n: nat): (k: nat)
    requires InUnit(u) && n > 0
    ensures k < n
    ensures k as real <= u * n as real < k as real + 1.0
  {
    assert u * n as real < n as real by {
      assert (1.0 - u) * n as real > 0.0;
    }
    (u * n as real).Floor
  }

  function DigitChar(d: nat): char
    requires d < 10
  {
    "0123456789"[d]
  }

  function NatToString(n: nat): (s: string)
    ensures |s| > 0
    decreases n
  {
    if n < 10 then [DigitChar(n)] else NatToString(n / 10) + [DigitChar(n % 10)]
  }

  /** Decimal rendering of a whole number, as a template literal prints it. */
  function IntToString(i: int): (s: string)
    ensures |s| > 0
  {
    if i < 0 then "-" + NatToString(-i) else NatToString(i)
  }
}
