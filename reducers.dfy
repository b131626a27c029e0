/**
 * The state reducers of the dashboard hook (web/dashboard/src/hooks/useTelemetryData.ts)
 * other than the history buffer: the roster update and the `latest` update a
 * pushed sample performs, the directory refresh, the decoding of a fetch
 * response, and the `enrichedAgents` overlay.
 */
module Reducers {
  import opened Wrappers
  import opened Telemetry
  import History

  /** What the hook's `error` slot can hold; the model keeps the cause, not the formatted text. */
  datatype HookError =
    | OverviewFailed(status: int)  // "metrics overview request failed (<status>)"
    | HistoryFailed(status: int)   // "history request failed (<status>)"
    | Thrown(message: string)      // a rejected `fetch` or a body that is not JSON

  /**
   * What `fetch` followed by `res.json()` yields: a response with a status and
   * a body that decoded to a `T` or failed to, or a network failure.
   */
  datatype Response<T> = Response(status: int, body: Result<T, string>) | NetworkFailure(message: string)

  /** `Response.ok`. */
  predicate IsOkStatus(status: int) {
    200 <= status <= 299
  }

  /** The two requests the hook makes: the metrics overview and an agent's history. */
  datatype Request = OverviewRequest | HistoryRequest

  /** The error a non-ok response to `req` raises. */
  function NotOkError(req: Request, status: int): HookError {
    match req
    case OverviewRequest => OverviewFailed(status)
    case HistoryRequest => HistoryFailed(status)
  }

  /**
   * The `try` part of a fetch in the hook: a non-ok status throws the
   * request-specific error, a rejected fetch or undecodable body throws its
   * own message, and only an ok response with a decoded body gets through.
   */
  function FetchBody<T>(resp: Response<T>, req: Request): (r: Result<T, HookError>)
    ensures r.Ok? <==> resp.Response? && IsOkStatus(resp.status) && resp.body.Ok?
    ensures r.Ok? ==> r.value == resp.body.value
    ensures resp.Response? && !IsOkStatus(resp.status) ==> r == Err(NotOkError(req, resp.status))
    ensures resp.NetworkFailure? ==> r == Err(Thrown(resp.message))
  {
    match resp
    case NetworkFailure(m) => Err(Thrown(m))
    case Response(status, body) =>
      if !IsOkStatus(status) then Err(NotOkError(req, status))
      else match body
        case Ok(v) => Ok(v)
        case Err(m) => Err(Thrown(m))
  }

  /**
   * `refreshAgents`: on success the roster is replaced wholesale by the
   * directory (`data.agents ?? []`) and the error is cleared; on any failure
   * only the error is set and the roster is left as it was.
   */
  function RefreshAgents(agents: seq<AgentSummary>, error: Option<HookError>,
                         resp: Response<Option<seq<AgentSummary>>>): (r: (seq<AgentSummary>, Option<HookError>))
    ensures FetchBody(resp, OverviewRequest).Ok? ==>
              r.1 == None && r.0 == (match resp.body.value case Some(a) => a case None => [])
    ensures FetchBody(resp, OverviewRequest).Err? ==>
              r.0 == agents && r.1 == Some(FetchBody(resp, OverviewRequest).error)
    ensures resp.Response? && !IsOkStatus(resp.status) ==> r == (agents, Some(OverviewFailed(resp.status)))
  {
    match FetchBody(resp, OverviewRequest)
    case Ok(directory) => (match directory case Some(a) => a case None => [], None)
    case Err(e) => (agents, Some(e))
  }

  /**
   * The bootstrap fetch's state update: on success the history becomes the
   * fetched records (`data.records ?? []`) ordered by time, with no dedup and
   * no cap, and `latest` its last record; on failure only the error is set.
   */
  function ResolveHistory(history: seq<Record>, latest: Option<Record>, error: Option<HookError>,
                          resp: Response<Option<seq<Record>>>): (r: (seq<Record>, Option<Record>, Option<HookError>))
    ensures History.Sorted(history) ==> History.Sorted(r.0)
  {
    match FetchBody(resp, HistoryRequest)
    case Ok(records) =>
      var fetched := Fetched(records);
      History.SortByTimeSorted(fetched);
      var ordered := History.SortByTime(fetched);
      (ordered, History.LastSample(ordered), error)
    case Err(e) => (history, latest, Some(e))
  }

  /** `data.records ?? []`. */
  function Fetched(records: Option<seq<Record>>): (r: seq<Record>)
    ensures records.Some? ==> r == records.value
    ensures records.None? ==> r == []
  {
    match records case Some(s) => s case None => []
  }

  /**
   * A failed bootstrap only sets the error. A successful one leaves exactly
   * the fetched records in the buffer: ascending, the same multiset, and
   * records sharing a timestamp in the order they were fetched; `latest` is
   * the newest of them and the error is left alone.
   */
  lemma ResolveHistoryOutcome(history: seq<Record>, latest: Option<Record>, error: Option<HookError>,
                              resp: Response<Option<seq<Record>>>)
    ensures FetchBody(resp, HistoryRequest).Err? ==>
              ResolveHistory(history, latest, error, resp) == (history, latest, Some(FetchBody(resp, HistoryRequest).error))
    ensures FetchBody(resp, HistoryRequest).Ok? ==>
              var r := ResolveHistory(history, latest, error, resp);
              var fetched := Fetched(resp.body.value);
              && History.Sorted(r.0)
              && multiset(r.0) == multiset(fetched)
              && (forall k :: History.WithKey(r.0, k) == History.WithKey(fetched, k))
              && r.1 == History.LastSample(r.0)
              && (r.1.Some? ==> r.1.value in fetched && forall x :: x in fetched ==> x.collectedAt <= r.1.value.collectedAt)
              && r.2 == error
  {
    if FetchBody(resp, HistoryRequest).Ok? {
      var fetched := Fetched(resp.body.value);
      History.SortByTimeIsStableSort(fetched);
      var r := ResolveHistory(history, latest, error, resp);
      assert r.0 == History.SortByTime(fetched);
      if r.1.Some? {
        assert r.1.value in multiset(r.0);
        forall x | x in fetched ensures x.collectedAt <= r.1.value.collectedAt {
          assert x in multiset(fetched);
          assert x in r.0;
        }
      }
    }
  }

  // ---------------------------------------------------------------------------
  // The roster update of `onmessage`

  /** The agent ids of the roster, in roster order. */
  function Ids(agents: seq<AgentSummary>): (ids: seq<string>)
    ensures |ids| == |agents| && forall i :: 0 <= i < |agents| ==> ids[i] == agents[i].agentId
  {
    seq(|agents|, i requires 0 <= i < |agents| => agents[i].agentId)
  }

  /**
   * The `setAgents` reducer of `onmessage`: every entry for the payload's
   * agent gets the payload as `latest`, whatever its timestamp; an agent not
   * yet on the roster is appended at the end. Nothing is removed or reordered.
   */
  function ApplySample(agents: seq<AgentSummary>, payload: Record): (r: seq<AgentSummary>)
    ensures |r| == if payload.agentId in Ids(agents) then |agents| else |agents| + 1
    ensures forall i :: 0 <= i < |agents| ==> r[i].agentId == agents[i].agentId
    ensures forall i :: 0 <= i < |agents| && agents[i].agentId != payload.agentId ==> r[i] == agents[i]
    ensures forall i :: 0 <= i < |r| && r[i].agentId == payload.agentId ==> r[i].latest == Some(payload)
    ensures payload.agentId !in Ids(agents) ==> r[|agents|] == AgentSummary(payload.agentId, Some(payload))
    ensures payload.agentId in Ids(r)
  {
    var updated := seq(|agents|, i requires 0 <= i < |agents| =>
      if agents[i].agentId == payload.agentId then agents[i].(latest := Some(payload)) else agents[i]);
    if payload.agentId in Ids(agents) then updated
    else updated + [AgentSummary(payload.agentId, Some(payload))]
  }

  ghost predicate UniqueIds(agents: seq<AgentSummary>) {
    forall i, j :: 0 <= i < j < |agents| ==> agents[i].agentId != agents[j].agentId
  }

  /** A roster whose ids are unique keeps them unique under ApplySample. */
  lemma ApplySampleKeepsIdsUnique(agents: seq<AgentSummary>, payload: Record)
    requires UniqueIds(agents)
    ensures UniqueIds(ApplySample(agents, payload))
  {
    var r := ApplySample(agents, payload);
    forall i, j | 0 <= i < j < |r| ensures r[i].agentId != r[j].agentId {
      if j == |agents| {
        assert r[i].agentId == Ids(agents)[i];
      }
    }
  }

  /**
   * The roster update performs no timestamp check, so an older sample
   * replaces a newer `latest`.
   */
  lemma ApplySampleCanRegress(a: AgentSummary, older: Record)
    requires a.latest.Some? && older.agentId == a.agentId
    requires older.collectedAt < a.latest.value.collectedAt
    ensures ApplySample([a], older) == [AgentSummary(a.agentId, Some(older))]
    ensures ApplySample([a], older)[0].latest.value.collectedAt < a.latest.value.collectedAt
  {
    assert older.agentId in Ids([a]);
  }

  // ---------------------------------------------------------------------------
  // The `latest` update of `onmessage`

  function TimeOf(r: Option<Record>): int
    requires r.Some?
  {
    r.value.collectedAt
  }

  /**
   * The `setLatest` reducer of `onmessage`: the first sample is taken; later
   * the payload replaces the current sample only when it is not older. The
   * result is the newer of the two, ties going to the payload.
   */
  function NextLatest(current: Option<Record>, payload: Record): (r: Option<Record>)
    ensures r.Some?
    ensures r.value == payload || r == current
    ensures current.Some? ==> TimeOf(r) >= TimeOf(current) && TimeOf(r) >= payload.collectedAt
    ensures r.value == payload <==> current.None? || payload.collectedAt >= TimeOf(current)
  {
    match current
    case None => Some(payload)
    case Some(c) => if payload.collectedAt >= c.collectedAt then Some(payload) else current
  }

  /** `latest` after a series of pushed samples, in arrival order. */
  function LatestAfter(current: Option<Record>, payloads: seq<Record>): Option<Record>
    decreases payloads
  {
    if payloads == [] then current else LatestAfter(NextLatest(current, payloads[0]), payloads[1..])
  }

  /**
   * Whatever the arrival order, the observed `latest` never moves back in
   * time: after a series of samples it is at least as new as the starting
   * one and as every sample of the series, and it is one of them.
   */
  lemma {:induction false} LatestIsMonotone(current: Option<Record>, payloads: seq<Record>)
    ensures current.Some? || payloads != [] ==> LatestAfter(current, payloads).Some?
    ensures current.Some? ==> TimeOf(LatestAfter(current, payloads)) >= TimeOf(current)
    ensures forall p :: p in payloads ==> TimeOf(LatestAfter(current, payloads)) >= p.collectedAt
    ensures LatestAfter(current, payloads) == current || LatestAfter(current, payloads).value in payloads
    decreases payloads
  {
    if payloads != [] {
      var next := NextLatest(current, payloads[0]);
      LatestIsMonotone(next, payloads[1..]);
      assert payloads == [payloads[0]] + payloads[1..];
    }
  }

  // ---------------------------------------------------------------------------
  // `enrichedAgents`

  /**
   * `new Map(history.map(r => [r.agentId, r])).get(id)`: the last record of
   * the history that belongs to the agent, if any.
   */
  function LastForAgent(history: seq<Record>, id: string): (r: Option<Record>)
    ensures r.None? <==> forall i :: 0 <= i < |history| ==> history[i].agentId != id
    ensures r.Some? ==> exists i :: 0 <= i < |history| && history[i] == r.value && r.value.agentId == id &&
                                    forall j :: i < j < |history| ==> history[j].agentId != id
  {
    if history == [] then None
    else if history[|history| - 1].agentId == id then Some(history[|history| - 1])
    else LastForAgent(history[..|history| - 1], id)
  }

  /**
   * `enrichedAgents`: with an empty roster or an empty history the roster as
   * is; otherwise the same agents in the same order, each agent that has a
   * record in the history showing its last history record and the others
   * keeping their own `latest`.
   */
  function EnrichedAgents(agents: seq<AgentSummary>, history: seq<Record>): (r: seq<AgentSummary>)
    ensures agents == [] || history == [] ==> r == agents
    ensures |r| == |agents|
    ensures forall i :: 0 <= i < |agents| ==> r[i].agentId == agents[i].agentId
    ensures forall i :: 0 <= i < |agents| ==>
              r[i].latest == (if history != [] && LastForAgent(history, agents[i].agentId).Some?
                              then LastForAgent(history, agents[i].agentId) else agents[i].latest)
  {
    if agents == [] || history == [] then agents
    else
      seq(|agents|, i requires 0 <= i < |agents| =>
        agents[i].(latest := match LastForAgent(history, agents[i].agentId)
                             case Some(x) => Some(x)
                             case None => agents[i].latest))
  }

  /** The overlay keeps the roster's ids, in order. */
  lemma EnrichedKeepsIds(agents: seq<AgentSummary>, history: seq<Record>)
    ensures Ids(EnrichedAgents(agents, history)) == Ids(agents)
  {
  }

  /**
   * For a history that belongs to one agent and is sorted (as the buffer
   * is), the overlay gives that agent's entries the newest history record
   * and leaves every other entry untouched.
   */
  lemma EnrichedShowsNewestOfSelected(agents: seq<AgentSummary>, history: seq<Record>, id: string)
    requires history != [] && History.Sorted(history)
    requires forall x :: x in history ==> x.agentId == id
    ensures forall i :: 0 <= i < |agents| && agents[i].agentId == id ==>
              EnrichedAgents(agents, history)[i].latest == History.LastSample(history)
    ensures forall i :: 0 <= i < |agents| && agents[i].agentId != id ==>
              EnrichedAgents(agents, history)[i] == agents[i]
    ensures forall i :: 0 <= i < |agents| && agents[i].agentId == id ==>
              forall x :: x in history ==> x.collectedAt <= EnrichedAgents(agents, history)[i].latest.value.collectedAt
  {
    assert history[|history| - 1].agentId == id;
    assert history[|history| - 1] in history;
  }
}
