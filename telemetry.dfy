/**
 * The telemetry sample shared by the Go server (`storage.Record`) and the
 * dashboard (`TelemetryRecord`), and the dashboard's roster entry
 * (`AgentSummary`).
 *
 * `collectedAt` is a timestamp in nanoseconds since the Unix epoch. The
 * dashboard receives it as an ISO-8601 string; the model assumes that the
 * string and the time it parses to correspond one to one, so the same integer
 * serves as the dedup key and as the sort key.
 */
module Telemetry {
  import opened Wrappers

  /** Go's uint64. */
  type U64 = x: int | 0 <= x < 0x1_0000_0000_0000_0000

  datatype Record = Record(
    agentId: string,
    collectedAt: int,
    cpuUsage: real,
    memoryUsage: U64,
    memoryPercent: real,
    networkTxBytes: U64,
    networkRxBytes: U64,
    networkTxRate: real,
    networkRxRate: real,
    diskReadBytes: U64,
    diskWriteBytes: U64,
    diskReadRate: real,
    diskWriteRate: real,
    loadAvg1: real,
    loadAvg5: real,
    loadAvg15: real)

  /** One roster entry: an agent and, when known, its most recent sample. */
  datatype AgentSummary = AgentSummary(agentId: string, latest: Option<Record>)
}
