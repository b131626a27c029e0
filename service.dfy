/**
 * The ingest side of the server (internal/server/service.go): converting a
 * received metric into a record, deriving per-second rates from the
 * previous record of the same agent, and the receive loop of the stream.
 *
 * Durations and rates are `real`: the float64 rounding of `Seconds()` and
 * of the division, and the NaN/infinity guard that follows it, are not
 * modelled. `CollectedAt` is nanoseconds since the Unix epoch.
 */
module Service {
  import opened Wrappers
  import opened Telemetry

  // ---------------------------------------------------------------------------
  // ratePerSecond

  /**
   * The rate of a monotonic counter over `seconds`: 0 for a non-positive
   * interval, 0 when the counter went down (it was reset), otherwise the
   * increase divided by the interval.
   */
  function RatePerSecond(oldValue: U64, newValue: U64, seconds: real): (r: real)
    ensures r >= 0.0
    ensures seconds <= 0.0 ==> r == 0.0
    ensures newValue < oldValue ==> r == 0.0
    ensures seconds > 0.0 && newValue >= oldValue ==> r * seconds == (newValue - oldValue) as real
  {
    if seconds <= 0.0 then 0.0
    else if newValue < oldValue then 0.0
    else (newValue - oldValue) as real / seconds
  }

  // ---------------------------------------------------------------------------
  // enrichWithRates

  /** `CollectedAt.Sub(prev).Seconds()`. */
  function ElapsedSeconds(from: int, to: int): (r: real)
    ensures r > 0.0 <==> to > from
    ensures r * 1_000_000_000.0 == (to - from) as real
  {
    (to - from) as real / 1_000_000_000.0
  }

  /**
   * The record `enrichWithRates` leaves behind: when a previous record of
   * the agent exists and lies strictly earlier, the four rate fields become
   * the counters' rates over the elapsed time; otherwise the record is
   * unchanged. Nothing but the rate fields ever changes.
   */
  function WithRates(prev: Option<Record>, record: Record): (r: Record)
    ensures r.(networkTxRate := record.networkTxRate, networkRxRate := record.networkRxRate,
               diskReadRate := record.diskReadRate, diskWriteRate := record.diskWriteRate) == record
    ensures prev.None? || prev.value.collectedAt >= record.collectedAt ==> r == record
    ensures prev.Some? && prev.value.collectedAt < record.collectedAt ==>
              var seconds := ElapsedSeconds(prev.value.collectedAt, record.collectedAt);
              && r.networkTxRate == RatePerSecond(prev.value.networkTxBytes, record.networkTxBytes, seconds)
              && r.networkRxRate == RatePerSecond(prev.value.networkRxBytes, record.networkRxBytes, seconds)
              && r.diskReadRate == RatePerSecond(prev.value.diskReadBytes, record.diskReadBytes, seconds)
              && r.diskWriteRate == RatePerSecond(prev.value.diskWriteBytes, record.diskWriteBytes, seconds)
  {
    match prev
    case None => record
    case Some(p) =>
      var seconds := ElapsedSeconds(p.collectedAt, record.collectedAt);
      if seconds > 0.0 then
        record.(networkTxRate := RatePerSecond(p.networkTxBytes, record.networkTxBytes, seconds),
                networkRxRate := RatePerSecond(p.networkRxBytes, record.networkRxBytes, seconds),
                diskReadRate := RatePerSecond(p.diskReadBytes, record.diskReadBytes, seconds),
                diskWriteRate := RatePerSecond(p.diskWriteBytes, record.diskWriteBytes, seconds))
      else record
  }

  /** Rates are never negative once computed, whatever the counters did. */
  predicate NonNegativeRates(r: Record) {
    r.networkTxRate >= 0.0 && r.networkRxRate >= 0.0 && r.diskReadRate >= 0.0 && r.diskWriteRate >= 0.0
  }

  /** A record that arrives with non-negative rates leaves with non-negative rates. */
  lemma WithRatesNonNegative(prev: Option<Record>, record: Record)
    requires NonNegativeRates(record)
    ensures NonNegativeRates(WithRates(prev, record))
  {
  }

  // ---------------------------------------------------------------------------
  // convertMetric

  /** The wire message: a missing `collected_at` is `None`; the message has no rate fields. */
  datatype Metric = Metric(
    agentId: string,
    collectedAt: Option<int>,
    cpuUsage: real,
    memoryUsage: U64,
    memoryPercent: real,
    networkTxBytes: U64,
    networkRxBytes: U64,
    diskReadBytes: U64,
    diskWriteBytes: U64,
    loadAvg1: real,
    loadAvg5: real,
    loadAvg15: real)

  datatype ConvertError = NilMetric | MissingAgentId

  /**
   * `convertMetric` with the clock reading `now`: a nil message or an
   * empty agent id is rejected; otherwise the fields are copied, the rates
   * start at zero and the timestamp is the message's, or `now` when it has
   * none.
   */
  function ConvertMetric(metric: Option<Metric>, now: int): (r: Result<Record, ConvertError>)
    ensures metric.None? ==> r == Err(NilMetric)
    ensures metric.Some? && metric.value.agentId == "" ==> r == Err(MissingAgentId)
    ensures r.Ok? <==> metric.Some? && metric.value.agentId != ""
    ensures r.Ok? ==>
              var m := metric.value;
              && r.value.agentId == m.agentId
              && r.value.collectedAt == (match m.collectedAt case Some(t) => t case None => now)
              && r.value.networkTxRate == 0.0 && r.value.networkRxRate == 0.0
              && r.value.diskReadRate == 0.0 && r.value.diskWriteRate == 0.0
              && ToMetric(r.value) == m.(collectedAt := Some(r.value.collectedAt))
  {
    match metric
    case None => Err(NilMetric)
    case Some(m) =>
      var timestamp := match m.collectedAt case Some(t) => t case None => now;
      var record := Record(m.agentId, timestamp, m.cpuUsage, m.memoryUsage, m.memoryPercent,
                           m.networkTxBytes, m.networkRxBytes, 0.0, 0.0,
                           m.diskReadBytes, m.diskWriteBytes, 0.0, 0.0,
                           m.loadAvg1, m.loadAvg5, m.loadAvg15);
      if record.agentId == "" then Err(MissingAgentId) else Ok(record)
  }

  /** The message an agent sends for a sample: the record's fields with its timestamp, rates dropped. */
  function ToMetric(r: Record): Metric {
    Metric(r.agentId, Some(r.collectedAt), r.cpuUsage, r.memoryUsage, r.memoryPercent,
           r.networkTxBytes, r.networkRxBytes, r.diskReadBytes, r.diskWriteBytes,
           r.loadAvg1, r.loadAvg5, r.loadAvg15)
  }

  predicate ZeroRates(r: Record) {
    r.networkTxRate == 0.0 && r.networkRxRate == 0.0 && r.diskReadRate == 0.0 && r.diskWriteRate == 0.0
  }

  /**
   * Converting the message of a record gives the record back exactly when
   * it has an agent id and no rates; the clock is not consulted.
   */
  lemma ConvertRoundTrip(r: Record, now: int)
    ensures ConvertMetric(Some(ToMetric(r)), now) == Ok(r) <==> r.agentId != "" && ZeroRates(r)
  {
  }

  // ---------------------------------------------------------------------------
  // StreamMetrics

  /** What `stream.Recv` can produce, with the clock and the outcome of `Save` for a message. */
  datatype Received =
    | Message(metric: Option<Metric>, now: int, saveOk: bool)
    | EndOfStream               // io.EOF
    | RecvError(message: string)

  /** How the receive loop ended: nil on EOF, the error otherwise; still receiving when input ran out. */
  datatype Outcome = Completed | Aborted(message: string) | Receiving

  datatype IngestState = IngestState(outcome: Outcome, saved: seq<Record>, previous: map<string, Record>)

  /**
   * The receive loop over `stream` from the table `previous`: a message that
   * does not convert is discarded, any other is enriched (which updates the
   * table) and then saved; a failed save is only logged. The first receive
   * error ends the loop.
   */
  ghost function Ingest(previous: map<string, Record>, stream: seq<Received>): IngestState
    decreases |stream|
  {
    if stream == [] then IngestState(Receiving, [], previous)
    else match stream[0]
      case EndOfStream => IngestState(Completed, [], previous)
      case RecvError(e) => IngestState(Aborted(e), [], previous)
      case Message(metric, now, saveOk) =>
        match ConvertMetric(metric, now)
        case Err(_) => Ingest(previous, stream[1..])
        case Ok(record) =>
          var enriched := WithRates(if record.agentId in previous then Some(previous[record.agentId]) else None, record);
          var rest := Ingest(previous[record.agentId := enriched], stream[1..]);
          if saveOk then rest.(saved := [enriched] + rest.saved) else rest
  }

  /** Every entry of the table is the record of the agent it is filed under. */
  ghost predicate KeyedByAgent(previous: map<string, Record>) {
    forall id :: id in previous ==> previous[id].agentId == id && id != ""
  }

  /**
   * The loop keeps the table keyed by agent; every saved record has an
   * agent id and non-negative rates.
   */
  lemma {:induction false} IngestKeepsTable(previous: map<string, Record>, stream: seq<Received>)
    requires KeyedByAgent(previous)
    ensures KeyedByAgent(Ingest(previous, stream).previous)
    ensures forall r :: r in Ingest(previous, stream).saved ==> r.agentId != "" && NonNegativeRates(r)
    decreases |stream|
  {
    if stream != [] && stream[0].Message? {
      var m := stream[0];
      match ConvertMetric(m.metric, m.now)
      case Err(_) =>
        IngestKeepsTable(previous, stream[1..]);
      case Ok(record) =>
        var enriched := WithRates(if record.agentId in previous then Some(previous[record.agentId]) else None, record);
        WithRatesNonNegative(if record.agentId in previous then Some(previous[record.agentId]) else None, record);
        IngestKeepsTable(previous[record.agentId := enriched], stream[1..]);
    }
  }

  /** A message that does not convert leaves no trace: it is as if it had not been received. */
  lemma InvalidMessageSkipped(previous: map<string, Record>, m: Received, rest: seq<Received>)
    requires m.Message? && ConvertMetric(m.metric, m.now).Err?
    ensures Ingest(previous, [m] + rest) == Ingest(previous, rest)
  {
    assert ([m] + rest)[1..] == rest;
  }

  /**
   * A message whose save fails is not stored, but the table already holds
   * it: the next sample of the agent is rated against it.
   */
  lemma FailedSaveStillUpdatesTable(previous: map<string, Record>, m: Received, rest: seq<Received>)
    requires m.Message? && !m.saveOk && ConvertMetric(m.metric, m.now).Ok?
    ensures var record := ConvertMetric(m.metric, m.now).value;
            var enriched := WithRates(if record.agentId in previous then Some(previous[record.agentId]) else None, record);
            Ingest(previous, [m] + rest) == Ingest(previous[record.agentId := enriched], rest)
  {
    assert ([m] + rest)[1..] == rest;
  }

  /** Nothing after the end of the stream or a receive error is looked at. */
  lemma StopsAtFirstError(previous: map<string, Record>, m: Received, rest: seq<Received>)
    requires !m.Message?
    ensures Ingest(previous, [m] + rest).saved == [] && Ingest(previous, [m] + rest).previous == previous
    ensures Ingest(previous, [m] + rest).outcome == if m.EndOfStream? then Completed else Aborted(m.message)
  {
  }

  /** The service: the per-agent table of the last record seen. */
  class TelemetryService {
    var previous: map<string, Record>

    /** `NewTelemetryService`: an empty table. */
    constructor()
      ensures previous == map[]
    {
      previous := map[];
    }

    /**
     * `enrichWithRates`: the record is rated against the agent's previous
     * record and then becomes that agent's entry; other entries stay.
     */
    method EnrichWithRates(record: Record) returns (enriched: Record)
      modifies this
      ensures enriched == WithRates(if record.agentId in old(previous) then Some(old(previous)[record.agentId]) else None, record)
      ensures previous == old(previous)[record.agentId := enriched]
    {
      var prev: Option<Record> := None;
      if record.agentId in previous {
        prev := Some(previous[record.agentId]);
      }
      enriched := record;
      if prev.Some? {
        var elapsed := ElapsedSeconds(prev.value.collectedAt, record.collectedAt);
        if elapsed > 0.0 {
          enriched := enriched.(networkTxRate := RatePerSecond(prev.value.networkTxBytes, record.networkTxBytes, elapsed));
          enriched := enriched.(networkRxRate := RatePerSecond(prev.value.networkRxBytes, record.networkRxBytes, elapsed));
          enriched := enriched.(diskReadRate := RatePerSecond(prev.value.diskReadBytes, record.diskReadBytes, elapsed));
          enriched := enriched.(diskWriteRate := RatePerSecond(prev.value.diskWriteBytes, record.diskWriteBytes, elapsed));
        }
      }
      previous := previous[record.agentId := enriched];
    }

    /**
     * `StreamMetrics` over the messages the stream delivers: returns how the
     * loop ended and the records handed to a successful `Save`, in order.
     */
    method StreamMetrics(stream: seq<Received>) returns (outcome: Outcome, saved: seq<Record>)
      modifies this
      ensures Ingest(old(previous), stream) == IngestState(outcome, saved, previous)
    {
      saved := [];
      var i := 0;
      while i < |stream|
        invariant 0 <= i <= |stream|
        invariant Ingest(old(previous), stream) ==
                  var rest := Ingest(previous, stream[i..]); rest.(saved := saved + rest.saved)
      {
        assert stream[i..][1..] == stream[i + 1..];
        match stream[i] {
          case EndOfStream =>
            return Completed, saved;
          case RecvError(e) =>
            return Aborted(e), saved;
          case Message(metric, now, saveOk) =>
            var converted := ConvertMetric(metric, now);
            if converted.Ok? {
              var enriched := EnrichWithRates(converted.value);
              if saveOk {
                saved := saved + [enriched];
              }
            }
        }
        i := i + 1;
      }
      outcome := Receiving;
    }
  }
}
