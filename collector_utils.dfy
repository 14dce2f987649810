/** Helpers shared by the data collectors (`src/collector_utils.rs`): the
    result record of one collection, a cache whose entries expire after a
    time to live, the retry loop, lenient number parsing and the collector
    defaults. Wall-clock readings are parameters, in nanoseconds since the
    Unix epoch; durations are nanoseconds too. */
module CollectorUtils {
  import opened Base
  import opened Text

  const NanosPerSec: nat := 1_000_000_000

  /** `Duration::from_secs`. */
  function FromSecs(secs: nat): (d: nat)
    ensures d / NanosPerSec == secs && d % NanosPerSec == 0
  {
    secs * NanosPerSec
  }

  // ---------------------------------------------------------------------------
  // Collection results
  // ---------------------------------------------------------------------------

  /** The outcome of one collection. */
  datatype CollectionResult<T> = CollectionResult(data: Option<T>, error: Option<string>, cached: bool, timestamp: int)
  {
    /** Exactly one of data and error is present, and only data can be cached. */
    predicate WellFormed()
    {
      data.Some? != error.Some? && (cached ==> data.Some?)
    }
  }

  /** `CollectionResult::success`, stamped with the current time. */
  function Success<T>(data: T, now: int): (r: CollectionResult<T>)
    ensures r.WellFormed() && r.data == Some(data) && !r.cached && r.timestamp == now
  {
    CollectionResult(Some(data), None, false, now)
  }

  /** `CollectionResult::error`, stamped with the current time. */
  function Failure<T>(error: string, now: int): (r: CollectionResult<T>)
    ensures r.WellFormed() && r.error == Some(error) && r.data.None? && !r.cached && r.timestamp == now
  {
    CollectionResult(None, Some(error), false, now)
  }

  /** `CollectionResult::cached`: data kept from an earlier collection, with its own time. */
  function Cached<T>(data: T, timestamp: int): (r: CollectionResult<T>)
    ensures r.WellFormed() && r.data == Some(data) && r.cached && r.timestamp == timestamp
  {
    CollectionResult(Some(data), None, true, timestamp)
  }

  // ---------------------------------------------------------------------------
  // The cache
  // ---------------------------------------------------------------------------

  /** The age of an entry as `to_std()` sees it: none when the entry's time
      lies in the future, which `unwrap_or(Duration::MAX)` turns into an age
      beyond every limit. */
  function Age(now: int, stamp: int): Option<nat>
  {
    if now - stamp >= 0 then Some(now - stamp) else None
  }

  /** An age strictly below a limit; a future time is below none. */
  predicate YoungerThan(now: int, stamp: int, limit: nat)
  {
    var age := Age(now, stamp);
    age.Some? && age.value < limit
  }

  /** The entries `retain` keeps: those younger than twice the time to live. */
  function Retained<T>(entries: map<string, (T, int)>, now: int, ttl: nat): (r: map<string, (T, int)>)
    ensures forall k :: k in r <==> k in entries && YoungerThan(now, entries[k].1, 2 * ttl)
    ensures forall k :: k in r ==> r[k] == entries[k]
  {
    map k | k in entries && YoungerThan(now, entries[k].1, 2 * ttl) :: entries[k]
  }

  /** `DataCache<T>`: values by key, each with the time it was stored. */
  class DataCache<T> {
    var entries: map<string, (T, int)>
    const ttl: nat

    constructor (ttl: nat)
      ensures this.ttl == ttl && entries == map[]
    {
      this.ttl := ttl;
      entries := map[];
    }

    /** `get(key)` at time `now`: the stored value while it is younger than the
        time to live. */
    function Get(key: string, now: int): (r: Option<T>)
      reads this
      ensures r.Some? <==> key in entries && YoungerThan(now, entries[key].1, ttl)
      ensures r.Some? ==> r.value == entries[key].0
    {
      if key in entries && YoungerThan(now, entries[key].1, ttl) then Some(entries[key].0) else None
    }

    /** `set(key, value)`: the entry is stored at `storedAt`, then entries
        older than twice the time to live at `now` are dropped (the source
        reads the clock twice). */
    method Set(key: string, value: T, storedAt: int, now: int)
      modifies this
      ensures entries == Retained(old(entries)[key := (value, storedAt)], now, ttl)
      ensures key in entries <==> YoungerThan(now, storedAt, 2 * ttl)
      ensures key in entries ==> entries[key] == (value, storedAt)
      ensures forall k :: k in entries ==> YoungerThan(now, entries[k].1, 2 * ttl)
      ensures forall k :: k in entries && k != key ==> k in old(entries) && entries[k] == old(entries)[k]
    {
      entries := entries[key := (value, storedAt)];
      entries := Retained(entries, now, ttl);
    }
  }

  /** A value just stored is read back while it is younger than the time to
      live, and is gone once it is not. */
  lemma GetAfterSet<T>(entries: map<string, (T, int)>, key: string, value: T, storedAt: int, now: int, ttl: nat, later: int)
    requires 0 <= now - storedAt < 2 * ttl
    ensures var e := Retained(entries[key := (value, storedAt)], now, ttl);
      key in e && e[key] == (value, storedAt)
    ensures 0 <= later - storedAt < ttl ==> YoungerThan(later, storedAt, ttl)
    ensures later < storedAt || later - storedAt >= ttl ==> !YoungerThan(later, storedAt, ttl)
  {
  }

  /** With a positive time to live and a single clock reading, `set` keeps
      the key it stored; an entry stamped in the future is never fresh. */
  lemma SetKeepsItsKey<T>(entries: map<string, (T, int)>, key: string, value: T, now: int, ttl: nat)
    requires ttl > 0
    ensures key in Retained(entries[key := (value, now)], now, ttl)
    ensures forall stamp :: stamp > now ==> !YoungerThan(now, stamp, ttl)
  {
  }

  // ---------------------------------------------------------------------------
  // Retry
  // ---------------------------------------------------------------------------

  /** The number of attempts `retry_async` allows: `max_retries`, but always one. */
  function Attempts(maxRetries: nat): (n: nat)
    ensures n >= 1 && n >= maxRetries && (maxRetries >= 1 ==> n == maxRetries)
  {
    Max(1, maxRetries)
  }

  /** `retry_async`: `outcome(i)` is what the `i`-th call of `f` returns.
      Returns the result, the number of calls and the number of sleeps. */
  method RetryAsync<T, E>(outcome: nat -> Result<T, E>, maxRetries: nat) returns (r: Result<T, E>, calls: nat, sleeps: nat)
    ensures 1 <= calls <= Attempts(maxRetries)
    ensures r == outcome(calls - 1)
    ensures forall i :: 0 <= i < calls - 1 ==> outcome(i).Err?
    ensures r.Err? ==> calls == Attempts(maxRetries)
    ensures sleeps == calls - 1
  {
    var retries := 0;
    calls, sleeps := 0, 0;
    while true
      invariant calls == retries && sleeps == retries && retries < Attempts(maxRetries)
      invariant forall i :: 0 <= i < calls ==> outcome(i).Err?
      decreases Attempts(maxRetries) - retries
    {
      var res := outcome(calls);
      calls := calls + 1;
      if res.Ok? {
        return res, calls, sleeps;
      }
      retries := retries + 1;
      if retries >= maxRetries {
        return res, calls, sleeps;
      }
      sleeps := sleeps + 1;
    }
  }

  // ---------------------------------------------------------------------------
  // Parsing with a default
  // ---------------------------------------------------------------------------

  /** `parse_with_default`: the parse of the trimmed text, or the default. */
  function ParseWithDefault<T>(s: string, default: T, parse: string -> Option<T>): (r: T)
    ensures parse(RustTrim(s)).None? ==> r == default
    ensures parse(RustTrim(s)).Some? ==> r == parse(RustTrim(s)).value
  {
    match parse(RustTrim(s))
    case Some(v) => v
    case None => default
  }

  /** Text that neither starts nor ends with whitespace trims to itself,
      whatever whitespace surrounds it. */
  lemma TrimFramed(t: string, before: string, after: string)
    requires t != [] && !IsRustWhitespace(t[0]) && !IsRustWhitespace(t[|t| - 1])
    requires Blank(before, IsRustWhitespace) && Blank(after, IsRustWhitespace)
    ensures RustTrim(t) == t
    ensures RustTrim(before + t + after) == t
  {
    assert TrimStart(t, IsRustWhitespace) == t;
    assert TrimEnd(t, IsRustWhitespace) == t;
    assert before + t + after == before + (t + after);
    TrimStartBlankPrefix(before, t + after, IsRustWhitespace);
    assert (t + after)[0] == t[0];
    assert TrimStart(t + after, IsRustWhitespace) == t + after;
    TrimEndBlankSuffix(t, after, IsRustWhitespace);
  }

  /** A port number written in decimal, whatever whitespace surrounds it,
      reads back. */
  lemma ParsePortWithDefault(n: nat, default: nat, before: string, after: string)
    requires n < 0x1_0000
    requires Blank(before, IsRustWhitespace) && Blank(after, IsRustWhitespace)
    ensures ParseWithDefault(NatToString(n), default, ParseU16) == n
    ensures ParseWithDefault(before + NatToString(n) + after, default, ParseU16) == n
  {
    ParseU16OfDecimal(n);
    TrimFramed(NatToString(n), before, after);
  }

  /** Text made only of whitespace, the empty text included, gives the default. */
  lemma ParseBlankWithDefault(s: string, default: nat)
    requires Blank(s, IsRustWhitespace)
    ensures ParseWithDefault(s, default, ParseU16) == default
  {
    TrimEmptyIff(s, IsRustWhitespace);
    ParseU16RejectsEmpty();
  }

  // ---------------------------------------------------------------------------
  // Collector defaults
  // ---------------------------------------------------------------------------

  /** The collectors' settings; durations in nanoseconds. */
  datatype CollectorConfig = CollectorConfig(
    commandTimeout: nat, gpuCacheTtl: nat, sensorsCacheTtl: nat, portScanTimeout: nat,
    maxProcesses: nat, enableFallback: bool)

  /** `CollectorConfig::default()`. */
  function DefaultCollectorConfig(): (c: CollectorConfig)
    ensures c.commandTimeout == FromSecs(5) && c.gpuCacheTtl == FromSecs(5)
    ensures c.sensorsCacheTtl == FromSecs(10) && c.portScanTimeout == FromSecs(3)
    ensures c.maxProcesses == 20 && c.enableFallback
  {
    CollectorConfig(FromSecs(5), FromSecs(5), FromSecs(10), FromSecs(3), 20, true)
  }
}
