/** The collector health registry (`src/health.rs`): collectors register,
    report each collection's outcome, and the registry summarises them.
    Clock readings are parameters, in nanoseconds since the Unix epoch. */
module Health {
  import opened Base

  const U32Limit: nat := 0x1_0000_0000
  const U64Limit: nat := 0x1_0000_0000_0000_0000
  const NanosPerSec: nat := 1_000_000_000

  const Starting: string := "starting"
  const Healthy: string := "healthy"
  const Failed: string := "error"
  const Degraded: string := "degraded"

  /** What the registry knows of one collector. */
  datatype CollectorStatus = CollectorStatus(
    name: string, status: string, lastUpdate: Option<int>, errorCount: nat, lastError: Option<string>)

  /** The summary `get_health_status` returns. */
  datatype HealthStatus = HealthStatus(
    status: string, timestamp: int, uptimeSeconds: nat, version: string,
    collectors: map<string, CollectorStatus>)

  /** A freshly registered collector. */
  function Registered(name: string): (c: CollectorStatus)
    ensures c.name == name && c.status == Starting && c.errorCount == 0
    ensures c.lastUpdate.None? && c.lastError.None?
  {
    CollectorStatus(name, Starting, None, 0, None)
  }

  /** The `u32` error counter after one more failure; it wraps at 2^32 as an
      unchecked addition does. */
  function NextErrorCount(count: nat): (n: nat)
    requires count < U32Limit
    ensures n < U32Limit
    ensures count + 1 < U32Limit ==> n == count + 1
    ensures count + 1 == U32Limit ==> n == 0
  {
    (count + 1) % U32Limit
  }

  /** One reported outcome applied to a collector's record. */
  function Updated(c: CollectorStatus, success: bool, error: Option<string>, now: int): (u: CollectorStatus)
    requires c.errorCount < U32Limit
    ensures u.name == c.name && u.lastUpdate == Some(now) && u.errorCount < U32Limit
    ensures success ==> u.status == Healthy && u.errorCount == c.errorCount && u.lastError == c.lastError
    ensures !success ==> u.status == Failed && u.errorCount == NextErrorCount(c.errorCount) && u.lastError == error
  {
    if success then c.(lastUpdate := Some(now), status := Healthy)
    else c.(lastUpdate := Some(now), status := Failed, errorCount := NextErrorCount(c.errorCount), lastError := error)
  }

  /** The overall status: healthy when every collector is, degraded otherwise. */
  function OverallStatus(collectors: map<string, CollectorStatus>): (s: string)
    ensures s == Healthy <==> forall k :: k in collectors ==> collectors[k].status == Healthy
    ensures s != Healthy ==> s == Degraded
  {
    if forall k :: k in collectors ==> collectors[k].status == Healthy then Healthy else Degraded
  }

  /** `num_seconds()` truncates toward zero, and `as u64` wraps a negative
      count (a clock set back past the start) around 2^64. */
  function UptimeSeconds(now: int, start: int): (u: nat)
    ensures now >= start && (now - start) / NanosPerSec < U64Limit ==> u == (now - start) / NanosPerSec
    ensures u < U64Limit
  {
    var elapsed := now - start;
    var secs := if elapsed >= 0 then elapsed / NanosPerSec else -((-elapsed) / NanosPerSec);
    secs % U64Limit
  }

  /** A clock set back by a second or more reports an uptime above 2^63. */
  lemma ClockSetBack(now: int, start: int)
    requires start - now >= NanosPerSec && start - now < U64Limit
    ensures UptimeSeconds(now, start) >= U64Limit / 2
  {
  }

  /** `HealthMonitor`: the start time and the collectors by name. */
  class HealthMonitor {
    const startTime: int
    var collectors: map<string, CollectorStatus>

    /** Every error counter fits in a `u32`. */
    predicate Valid()
      reads this
    {
      forall k :: k in collectors ==> collectors[k].errorCount < U32Limit
    }

    constructor (now: int)
      ensures startTime == now && collectors == map[] && Valid()
    {
      startTime := now;
      collectors := map[];
    }

    /** `register_collector`: inserts, or replaces, a starting record. */
    method RegisterCollector(name: string)
      requires Valid()
      modifies this
      ensures Valid()
      ensures collectors == old(collectors)[name := Registered(name)]
    {
      collectors := collectors[name := Registered(name)];
    }

    /** `update_collector_status`: updates a registered collector's record;
        an unknown name changes nothing. */
    method UpdateCollectorStatus(name: string, success: bool, error: Option<string>, now: int)
      requires Valid()
      modifies this
      ensures Valid()
      ensures name !in old(collectors) ==> collectors == old(collectors)
      ensures name in old(collectors) ==>
        collectors == old(collectors)[name := Updated(old(collectors)[name], success, error, now)]
    {
      if name in collectors {
        collectors := collectors[name := Updated(collectors[name], success, error, now)];
      }
    }

    /** `get_health_status`: a summary and a copy of the registry, which is left as it was. */
    method GetHealthStatus(now: int, version: string) returns (h: HealthStatus)
      ensures h.collectors == collectors
      ensures h.status == Healthy <==> forall k :: k in collectors ==> collectors[k].status == Healthy
      ensures h.status != Healthy ==> h.status == Degraded
      ensures h.uptimeSeconds == UptimeSeconds(now, startTime)
      ensures h.timestamp == now && h.version == version
    {
      h := HealthStatus(OverallStatus(collectors), now, UptimeSeconds(now, startTime), version, collectors);
    }
  }

  /** With no collectors the summary is healthy; a collector that is still
      starting, or whose last report failed, makes it degraded. */
  lemma OverallStatusCases(collectors: map<string, CollectorStatus>, name: string)
    ensures OverallStatus(map[]) == Healthy
    ensures name in collectors && collectors[name].status in {Starting, Failed} ==> OverallStatus(collectors) == Degraded
  {
  }

  /** After a successful report of every registered collector, the summary is
      healthy. */
  lemma AllReportsSucceeded(collectors: map<string, CollectorStatus>, now: int)
    requires forall k :: k in collectors ==> collectors[k].errorCount < U32Limit
    ensures OverallStatus(map k | k in collectors :: Updated(collectors[k], true, None, now)) == Healthy
  {
    var after := map k | k in collectors :: Updated(collectors[k], true, None, now);
    forall k | k in after ensures after[k].status == Healthy {
      assert after[k] == Updated(collectors[k], true, None, now);
    }
  }

  /** One failed report makes the summary degraded, whatever the others say. */
  lemma FailureDegrades(collectors: map<string, CollectorStatus>, name: string, error: Option<string>, now: int)
    requires name in collectors && collectors[name].errorCount < U32Limit
    ensures OverallStatus(collectors[name := Updated(collectors[name], false, error, now)]) == Degraded
  {
    var after := collectors[name := Updated(collectors[name], false, error, now)];
    assert name in after && after[name].status == Failed;
  }

  /** Registering then failing records one error and the given message, even
      when that message is absent. */
  lemma RegisterThenFail(name: string, error: Option<string>, now: int)
    ensures var c := Updated(Registered(name), false, error, now);
      c.status == Failed && c.errorCount == 1 && c.lastError == error && c.lastUpdate == Some(now)
  {
  }
}
