/** The monitoring section of the configuration file (`src/collector_config.rs`):
    its defaults, both when a key is missing and when the whole section is,
    and its conversion into the collectors' own settings. */
module CollectorConfig {
  import opened Base
  import CollectorUtils

  /** `CollectorsConfig`; seconds and counts. */
  datatype CollectorsConfig = CollectorsConfig(
    collectIntervalSecs: nat, enableGpu: bool, enablePorts: bool, enableProcesses: bool,
    enableSensors: bool, commandTimeoutSecs: nat, maxProcesses: nat)

  /** `PerformanceConfig`; seconds and a count. */
  datatype PerformanceConfig = PerformanceConfig(
    gpuCacheTtlSecs: nat, sensorsCacheTtlSecs: nat, portScanTimeoutSecs: nat, historySize: nat)

  datatype GlobalConfig = GlobalConfig(collectors: CollectorsConfig, performance: PerformanceConfig)

  // The values the serde default functions give a missing key.
  const DefaultCollectInterval: nat := 1
  const DefaultCommandTimeout: nat := 5
  const DefaultMaxProcesses: nat := 20
  const DefaultGpuCacheTtl: nat := 5
  const DefaultSensorsCacheTtl: nat := 10
  const DefaultPortScanTimeout: nat := 3
  const DefaultHistorySize: nat := 60

  /** `CollectorsConfig::default()`. */
  function DefaultCollectors(): (c: CollectorsConfig)
    ensures c.collectIntervalSecs == 1 && c.commandTimeoutSecs == 5 && c.maxProcesses == 20
    ensures c.enableGpu && c.enablePorts && c.enableProcesses && c.enableSensors
  {
    CollectorsConfig(DefaultCollectInterval, true, true, true, true, DefaultCommandTimeout, DefaultMaxProcesses)
  }

  /** `PerformanceConfig::default()`. */
  function DefaultPerformance(): (p: PerformanceConfig)
    ensures p.gpuCacheTtlSecs == 5 && p.sensorsCacheTtlSecs == 10
    ensures p.portScanTimeoutSecs == 3 && p.historySize == 60
  {
    PerformanceConfig(DefaultGpuCacheTtl, DefaultSensorsCacheTtl, DefaultPortScanTimeout, DefaultHistorySize)
  }

  /** `GlobalConfig::default()`. */
  function DefaultGlobal(): (g: GlobalConfig)
    ensures g.collectors == DefaultCollectors() && g.performance == DefaultPerformance()
  {
    GlobalConfig(DefaultCollectors(), DefaultPerformance())
  }

  /** A `[collectors]` table as written: each key may be missing. */
  datatype CollectorsTable = CollectorsTable(
    collectIntervalSecs: Option<nat>, enableGpu: Option<bool>, enablePorts: Option<bool>,
    enableProcesses: Option<bool>, enableSensors: Option<bool>, commandTimeoutSecs: Option<nat>,
    maxProcesses: Option<nat>)

  /** A `[performance]` table as written. */
  datatype PerformanceTable = PerformanceTable(
    gpuCacheTtlSecs: Option<nat>, sensorsCacheTtlSecs: Option<nat>, portScanTimeoutSecs: Option<nat>,
    historySize: Option<nat>)

  function OrElse<T>(o: Option<T>, default: T): T
  {
    if o.Some? then o.value else default
  }

  /** Deserialising a `[collectors]` table: a missing key takes its serde default. */
  function DecodeCollectors(t: CollectorsTable): (c: CollectorsConfig)
    ensures t.collectIntervalSecs.Some? ==> c.collectIntervalSecs == t.collectIntervalSecs.value
    ensures t.collectIntervalSecs.None? ==> c.collectIntervalSecs == DefaultCollectInterval
    ensures t.enableGpu.Some? ==> c.enableGpu == t.enableGpu.value
    ensures t.enableGpu.None? ==> c.enableGpu
    ensures t.enablePorts.Some? ==> c.enablePorts == t.enablePorts.value
    ensures t.enablePorts.None? ==> c.enablePorts
    ensures t.enableProcesses.Some? ==> c.enableProcesses == t.enableProcesses.value
    ensures t.enableProcesses.None? ==> c.enableProcesses
    ensures t.enableSensors.Some? ==> c.enableSensors == t.enableSensors.value
    ensures t.enableSensors.None? ==> c.enableSensors
    ensures t.commandTimeoutSecs.Some? ==> c.commandTimeoutSecs == t.commandTimeoutSecs.value
    ensures t.commandTimeoutSecs.None? ==> c.commandTimeoutSecs == DefaultCommandTimeout
    ensures t.maxProcesses.Some? ==> c.maxProcesses == t.maxProcesses.value
    ensures t.maxProcesses.None? ==> c.maxProcesses == DefaultMaxProcesses
  {
    CollectorsConfig(
      OrElse(t.collectIntervalSecs, DefaultCollectInterval), OrElse(t.enableGpu, true),
      OrElse(t.enablePorts, true), OrElse(t.enableProcesses, true), OrElse(t.enableSensors, true),
      OrElse(t.commandTimeoutSecs, DefaultCommandTimeout), OrElse(t.maxProcesses, DefaultMaxProcesses))
  }

  /** Deserialising a `[performance]` table. */
  function DecodePerformance(t: PerformanceTable): (p: PerformanceConfig)
    ensures t.gpuCacheTtlSecs.Some? ==> p.gpuCacheTtlSecs == t.gpuCacheTtlSecs.value
    ensures t.gpuCacheTtlSecs.None? ==> p.gpuCacheTtlSecs == DefaultGpuCacheTtl
    ensures t.sensorsCacheTtlSecs.Some? ==> p.sensorsCacheTtlSecs == t.sensorsCacheTtlSecs.value
    ensures t.sensorsCacheTtlSecs.None? ==> p.sensorsCacheTtlSecs == DefaultSensorsCacheTtl
    ensures t.portScanTimeoutSecs.Some? ==> p.portScanTimeoutSecs == t.portScanTimeoutSecs.value
    ensures t.portScanTimeoutSecs.None? ==> p.portScanTimeoutSecs == DefaultPortScanTimeout
    ensures t.historySize.Some? ==> p.historySize == t.historySize.value
    ensures t.historySize.None? ==> p.historySize == DefaultHistorySize
  {
    PerformanceConfig(
      OrElse(t.gpuCacheTtlSecs, DefaultGpuCacheTtl), OrElse(t.sensorsCacheTtlSecs, DefaultSensorsCacheTtl),
      OrElse(t.portScanTimeoutSecs, DefaultPortScanTimeout), OrElse(t.historySize, DefaultHistorySize))
  }

  /** The `monitoring` section of the configuration file, which itself
      defaults: a missing section is `GlobalConfig::default()`, and a present
      one needs both of its tables (they have no default of their own). */
  function DecodeMonitoring(section: Option<(Option<CollectorsTable>, Option<PerformanceTable>)>): (r: Option<GlobalConfig>)
    ensures section.None? ==> r == Some(DefaultGlobal())
    ensures section.Some? ==> (r.Some? <==> section.value.0.Some? && section.value.1.Some?)
    ensures section.Some? && r.Some? ==>
      r.value == GlobalConfig(DecodeCollectors(section.value.0.value), DecodePerformance(section.value.1.value))
  {
    match section
    case None => Some(DefaultGlobal())
    case Some((Some(c), Some(p))) => Some(GlobalConfig(DecodeCollectors(c), DecodePerformance(p)))
    case Some(_) => None
  }

  /** Empty tables decode to the `Default` implementations: the serde
      defaults and the `Default` impls agree key by key. */
  lemma EmptyTablesAreDefault()
    ensures DecodeCollectors(CollectorsTable(None, None, None, None, None, None, None)) == DefaultCollectors()
    ensures DecodePerformance(PerformanceTable(None, None, None, None)) == DefaultPerformance()
    ensures DecodeMonitoring(Some((Some(CollectorsTable(None, None, None, None, None, None, None)),
      Some(PerformanceTable(None, None, None, None))))) == DecodeMonitoring(None)
  {
  }

  /** `From<GlobalConfig> for CollectorConfig`: seconds become durations of as
      many seconds, the process limit is copied, and fallback is always on. */
  function ToCollectorConfig(g: GlobalConfig): (c: CollectorUtils.CollectorConfig)
    ensures c.commandTimeout / CollectorUtils.NanosPerSec == g.collectors.commandTimeoutSecs
    ensures c.gpuCacheTtl / CollectorUtils.NanosPerSec == g.performance.gpuCacheTtlSecs
    ensures c.sensorsCacheTtl / CollectorUtils.NanosPerSec == g.performance.sensorsCacheTtlSecs
    ensures c.portScanTimeout / CollectorUtils.NanosPerSec == g.performance.portScanTimeoutSecs
    ensures c.commandTimeout % CollectorUtils.NanosPerSec == 0 && c.gpuCacheTtl % CollectorUtils.NanosPerSec == 0
    ensures c.sensorsCacheTtl % CollectorUtils.NanosPerSec == 0 && c.portScanTimeout % CollectorUtils.NanosPerSec == 0
    ensures c.maxProcesses == g.collectors.maxProcesses
    ensures c.enableFallback
  {
    CollectorUtils.CollectorConfig(
      CollectorUtils.FromSecs(g.collectors.commandTimeoutSecs),
      CollectorUtils.FromSecs(g.performance.gpuCacheTtlSecs),
      CollectorUtils.FromSecs(g.performance.sensorsCacheTtlSecs),
      CollectorUtils.FromSecs(g.performance.portScanTimeoutSecs),
      g.collectors.maxProcesses,
      true)
  }

  /** The conversion reads only the four durations and the process limit: the
      collection interval, the enable flags and the history size make no
      difference to it. */
  lemma ConversionIgnores(g: GlobalConfig, h: GlobalConfig)
    requires g.collectors.commandTimeoutSecs == h.collectors.commandTimeoutSecs
    requires g.collectors.maxProcesses == h.collectors.maxProcesses
    requires g.performance.gpuCacheTtlSecs == h.performance.gpuCacheTtlSecs
    requires g.performance.sensorsCacheTtlSecs == h.performance.sensorsCacheTtlSecs
    requires g.performance.portScanTimeoutSecs == h.performance.portScanTimeoutSecs
    ensures ToCollectorConfig(g) == ToCollectorConfig(h)
  {
  }

  /** Durations are kept exactly: converting is one-to-one on the fields it reads. */
  lemma ConversionInjective(g: GlobalConfig, h: GlobalConfig)
    requires ToCollectorConfig(g) == ToCollectorConfig(h)
    ensures g.collectors.commandTimeoutSecs == h.collectors.commandTimeoutSecs
    ensures g.collectors.maxProcesses == h.collectors.maxProcesses
    ensures g.performance.gpuCacheTtlSecs == h.performance.gpuCacheTtlSecs
    ensures g.performance.sensorsCacheTtlSecs == h.performance.sensorsCacheTtlSecs
    ensures g.performance.portScanTimeoutSecs == h.performance.portScanTimeoutSecs
  {
  }

  /** Converting the default global configuration gives exactly the
      collectors' own defaults. */
  lemma DefaultsAgree()
    ensures ToCollectorConfig(DefaultGlobal()) == CollectorUtils.DefaultCollectorConfig()
  {
  }
}
