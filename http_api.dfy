/**
 * The dashboard-facing HTTP handlers (internal/server/http.go): the `limit`
 * query parameter, the history and summary answers of `/api/metrics`, and
 * the server-sent event loop of `/api/metrics/stream`.
 *
 * The store is replaced by what its calls return: `List` and `Latest` are
 * functions of their arguments, `Agents` is a value, and each poll of the
 * event loop carries the `Latest` answer it gets together with whether
 * marshalling and writing the event succeed. Log lines are not modelled.
 */
module HttpApi {
  import opened Wrappers
  import opened Telemetry
  import History

  // ---------------------------------------------------------------------------
  // The `limit` parameter

  /** The default page size of `/api/metrics`. */
  const DefaultLimit: int := 60

  const MinInt64: int := -0x8000_0000_0000_0000
  const MaxInt64: int := 0x7FFF_FFFF_FFFF_FFFF

  predicate IsDigit(c: char) {
    '0' as int <= c as int <= '9' as int
  }

  /** The value of a string of decimal digits, most significant first. */
  function DigitsValue(ds: string): (v: nat)
    requires forall i :: 0 <= i < |ds| ==> IsDigit(ds[i])
  {
    if ds == [] then 0
    else
      assert IsDigit(ds[|ds| - 1]);
      10 * DigitsValue(ds[..|ds| - 1]) + (ds[|ds| - 1] as int - '0' as int)
  }

  /** A non-empty string of decimal digits. */
  predicate IsDigits(ds: string) {
    ds != [] && forall i :: 0 <= i < |ds| ==> IsDigit(ds[i])
  }

  /** The text after an optional leading sign. */
  function Unsigned(s: string): (ds: string)
    ensures |s| > 0 && (s[0] == '-' || s[0] == '+') ==> s == [s[0]] + ds
    ensures !(|s| > 0 && (s[0] == '-' || s[0] == '+')) ==> ds == s
  {
    if |s| > 0 && (s[0] == '-' || s[0] == '+') then s[1..] else s
  }

  /**
   * `strconv.Atoi` on a 64-bit platform: an optional sign followed by at
   * least one decimal digit, with a value that fits an int64, gives that
   * value (negated after a '-'); anything else (including the empty string,
   * spaces and underscores) is an error.
   */
  function Atoi(s: string): (r: Option<int>)
    ensures r.Some? ==> MinInt64 <= r.value <= MaxInt64
    ensures r.Some? ==> s != [] && (IsDigit(s[0]) || s[0] == '+' || s[0] == '-')
    ensures !IsDigits(Unsigned(s)) ==> r == None
    ensures IsDigits(Unsigned(s)) ==>
              var magnitude := DigitsValue(Unsigned(s));
              var v := if s[0] == '-' then 0 - magnitude else magnitude;
              r == if MinInt64 <= v <= MaxInt64 then Some(v) else None
  {
    var negative := |s| > 0 && s[0] == '-';
    var digits := if |s| > 0 && (s[0] == '-' || s[0] == '+') then s[1..] else s;
    if digits == [] || exists i :: 0 <= i < |digits| && !IsDigit(digits[i]) then None
    else
      var v: int := if negative then 0 - DigitsValue(digits) else DigitsValue(digits);
      if MinInt64 <= v <= MaxInt64 then Some(v) else None
  }

  /** The decimal rendering of `n`, most significant digit first, without leading zeros. */
  function Decimal(n: nat): (ds: string)
    ensures IsDigits(ds)
  {
    if n < 10 then [('0' as int + n) as char]
    else Decimal(n / 10) + [('0' as int + n % 10) as char]
  }

  /** The digits of `n` read back give `n`. */
  lemma {:induction false} DigitsOfDecimal(n: nat)
    ensures DigitsValue(Decimal(n)) == n
  {
    if n >= 10 {
      DigitsOfDecimal(n / 10);
      var ds := Decimal(n);
      assert ds[..|ds| - 1] == Decimal(n / 10);
    }
  }

  /**
   * A natural number written in decimal, with or without a '+', parses back
   * to itself exactly when it fits an int64.
   */
  lemma AtoiOfDecimal(n: nat)
    ensures Atoi(Decimal(n)) == if n <= MaxInt64 then Some(n) else None
    ensures Atoi("+" + Decimal(n)) == if n <= MaxInt64 then Some(n) else None
  {
    DigitsOfDecimal(n);
    assert Unsigned("+" + Decimal(n)) == Decimal(n);
  }

  /** A '-' followed by the decimal digits of `n` parses to `-n` exactly when that fits an int64. */
  lemma AtoiOfNegative(n: nat)
    ensures Atoi("-" + Decimal(n)) == if n <= -MinInt64 then Some(-(n as int)) else None
  {
    DigitsOfDecimal(n);
    assert Unsigned("-" + Decimal(n)) == Decimal(n);
  }

  /**
   * The page size `handleMetrics` uses: the parameter's value when it
   * parses as an integer greater than zero, 60 otherwise.
   */
  function ParseLimit(param: string): (limit: int)
    ensures limit > 0
    ensures limit == DefaultLimit || Atoi(param) == Some(limit)
    ensures Atoi(param).Some? && Atoi(param).value > 0 <==> Atoi(param) == Some(limit)
  {
    if param != "" then
      match Atoi(param)
      case Some(parsed) => if parsed > 0 then parsed else DefaultLimit
      case None => DefaultLimit
    else DefaultLimit
  }

  /** Zero, negative and non-numeric values all fall back to 60; valid ones are used as given. */
  lemma LimitExamples()
    ensures ParseLimit("") == 60 && ParseLimit("0") == 60 && ParseLimit("-3") == 60 && ParseLimit("abc") == 60
    ensures ParseLimit("120") == 120 && ParseLimit("+5") == 5 && ParseLimit(" 5") == 60
  {
    assert DigitsValue("120") == 120 by {
      assert "120"[..2] == "12" && "12"[..1] == "1" && "1"[..0] == "";
    }
    assert Atoi("+5") == Some(5) by {
      assert "+5"[1..] == "5" && "5"[..0] == "";
      assert IsDigit("5"[0]);
    }
    assert Atoi("-3") == Some(-3) by {
      assert "-3"[1..] == "3" && "3"[..0] == "";
      assert IsDigit("3"[0]);
    }
    assert !IsDigit("abc"[0]);
    assert !IsDigit(" 5"[0]);
  }

  // ---------------------------------------------------------------------------
  // handleMetrics

  /** What `store.Latest` returns: a record, no record, or an error. */
  datatype LatestLookup = Found(record: Record) | NotFound | LookupFailed(message: string)

  /** The JSON body `handleMetrics` writes, with the status of an error. */
  datatype MetricsResponse =
    | History(agentId: string, records: seq<Record>)
    | Summary(agents: seq<AgentSummary>)
    | Failure(status: int, message: string)

  /**
   * The summary of the agents in `ids`: the agents whose latest record
   * loads, in the order of `ids`, each with that record; agents whose
   * lookup fails or finds nothing are skipped.
   */
  function SummaryOf(ids: seq<string>, latest: string -> LatestLookup): seq<AgentSummary>
  {
    if ids == [] then []
    else
      var front := SummaryOf(ids[..|ids| - 1], latest);
      var id := ids[|ids| - 1];
      match latest(id)
      case Found(record) => front + [AgentSummary(id, Some(record))]
      case _ => front
  }

  /** `xs` can be obtained from `ys` by deleting elements. */
  ghost predicate IsSubsequence<T>(xs: seq<T>, ys: seq<T>)
    decreases |ys|
  {
    if xs == [] then true
    else if ys == [] then false
    else if xs[|xs| - 1] == ys[|ys| - 1] then IsSubsequence(xs[..|xs| - 1], ys[..|ys| - 1])
    else IsSubsequence(xs, ys[..|ys| - 1])
  }

  lemma {:induction false} SubsequenceOfLonger<T>(xs: seq<T>, ys: seq<T>, y: T)
    requires IsSubsequence(xs, ys)
    ensures IsSubsequence(xs, ys + [y])
    decreases |ys|, 1
  {
    if xs != [] && !(xs[|xs| - 1] == y) {
      assert (ys + [y])[..|ys|] == ys;
    } else if xs != [] {
      assert (ys + [y])[..|ys|] == ys;
      SubsequenceShorter(xs, ys);
    }
  }

  lemma {:induction false} SubsequenceShorter<T>(xs: seq<T>, ys: seq<T>)
    requires xs != [] && IsSubsequence(xs, ys)
    ensures IsSubsequence(xs[..|xs| - 1], ys)
    decreases |ys|, 0
  {
    var ys' := ys[..|ys| - 1];
    if xs[|xs| - 1] == ys[|ys| - 1] {
      SubsequenceOfLonger(xs[..|xs| - 1], ys', ys[|ys| - 1]);
      assert ys' + [ys[|ys| - 1]] == ys;
    } else {
      SubsequenceShorter(xs, ys');
      SubsequenceOfLonger(xs[..|xs| - 1], ys', ys[|ys| - 1]);
      assert ys' + [ys[|ys| - 1]] == ys;
    }
  }

  function SummaryIds(summaries: seq<AgentSummary>): (ids: seq<string>)
    ensures |ids| == |summaries| && forall i :: 0 <= i < |ids| ==> ids[i] == summaries[i].agentId
  {
    seq(|summaries|, i requires 0 <= i < |summaries| => summaries[i].agentId)
  }

  /**
   * The summary lists exactly the agents of the directory whose latest
   * record was found, in directory order (as a subsequence of it), each with
   * that record.
   */
  lemma {:induction false} SummaryIsFilteredDirectory(ids: seq<string>, latest: string -> LatestLookup)
    ensures IsSubsequence(SummaryIds(SummaryOf(ids, latest)), ids)
    ensures forall s :: s in SummaryOf(ids, latest) <==>
              s.agentId in ids && latest(s.agentId).Found? && s.latest == Some(latest(s.agentId).record)
  {
    if ids != [] {
      var front := ids[..|ids| - 1];
      var id := ids[|ids| - 1];
      SummaryIsFilteredDirectory(front, latest);
      assert ids == front + [id];
      var f := SummaryOf(front, latest);
      if latest(id).Found? {
        assert SummaryIds(f + [AgentSummary(id, Some(latest(id).record))])[..|f|] == SummaryIds(f);
      } else {
        SubsequenceOfLonger(SummaryIds(f), front, id);
      }
    }
  }

  /** The summary loop of `handleMetrics`. */
  method Summarize(ids: seq<string>, latest: string -> LatestLookup) returns (summaries: seq<AgentSummary>)
    ensures summaries == SummaryOf(ids, latest)
    ensures |summaries| <= |ids|
  {
    summaries := [];
    for i := 0 to |ids|
      invariant summaries == SummaryOf(ids[..i], latest)
      invariant |summaries| <= i
    {
      assert ids[..i + 1][..i] == ids[..i];
      match latest(ids[i]) {
        case LookupFailed(_) =>
        case NotFound =>
        case Found(record) =>
          summaries := summaries + [AgentSummary(ids[i], Some(record))];
      }
    }
    assert ids[..|ids|] == ids;
  }

  /**
   * `handleMetrics` for the query `agent_id`, `limit`: with an agent id the
   * agent's page of history (500 when `List` fails); without one the
   * summary of every agent in the directory (500 when `Agents` fails).
   */
  method HandleMetrics(agentId: string, limitParam: string,
                       list: (string, int) -> Result<seq<Record>, string>,
                       agents: Result<seq<string>, string>,
                       latest: string -> LatestLookup)
    returns (resp: MetricsResponse)
    ensures agentId != "" ==>
              resp == match list(agentId, ParseLimit(limitParam))
                      case Ok(records) => History(agentId, records)
                      case Err(e) => Failure(500, e)
    ensures agentId == "" && agents.Err? ==> resp == Failure(500, agents.error)
    ensures agentId == "" && agents.Ok? ==> resp == Summary(SummaryOf(agents.value, latest))
  {
    var limit := ParseLimit(limitParam);
    if agentId != "" {
      match list(agentId, limit) {
        case Err(e) =>
          return Failure(500, e);
        case Ok(records) =>
          return History(agentId, records);
      }
    }
    match agents {
      case Err(e) =>
        return Failure(500, e);
      case Ok(ids) =>
        var summaries := Summarize(ids, latest);
        return Summary(summaries);
    }
  }

  // ---------------------------------------------------------------------------
  // handleStream

  /** `time.Time{}`, 1 January of year 1, in nanoseconds since the Unix epoch. */
  const ZeroTime: int := -62135596800 * 1_000_000_000

  /** One turn of the event loop: the client goes away, or a tick polls the store. */
  datatype Tick = ClientGone | Poll(lookup: LatestLookup, marshalOk: bool, writeOk: bool)

  /** Why the event loop ended; `StillStreaming` when the modelled ticks ran out. */
  datatype StreamEnd = Disconnected | WriteFailed | InitialLoadFailed | StillStreaming

  datatype StreamResult =
    | Rejected(status: int, message: string)   // written with writeError before any event
    | Streamed(sent: seq<Record>, end: StreamEnd)

  /**
   * The events the poll loop sends from `lastSent` on: a poll sends the
   * record it finds when it is strictly newer than the last one sent and it
   * marshals; a failed lookup, a missing or old record, or a marshal
   * failure sends nothing; a failed write or the client leaving ends the
   * loop.
   */
  function PollEvents(lastSent: int, ticks: seq<Tick>): (r: (seq<Record>, StreamEnd))
    decreases |ticks|
  {
    if ticks == [] then ([], StillStreaming)
    else match ticks[0]
      case ClientGone => ([], Disconnected)
      case Poll(lookup, marshalOk, writeOk) =>
        if lookup.Found? && lookup.record.collectedAt > lastSent && marshalOk then
          if !writeOk then ([], WriteFailed)
          else
            var rest := PollEvents(lookup.record.collectedAt, ticks[1..]);
            ([lookup.record] + rest.0, rest.1)
        else PollEvents(lastSent, ticks[1..])
  }

  /**
   * The events of the poll loop are strictly newer than `lastSent` and
   * strictly increasing, so no record is sent twice.
   */
  lemma {:induction false} PollEventsIncrease(lastSent: int, ticks: seq<Tick>)
    ensures History.StrictlyIncreasing(PollEvents(lastSent, ticks).0)
    ensures forall r :: r in PollEvents(lastSent, ticks).0 ==> r.collectedAt > lastSent
    decreases |ticks|
  {
    if ticks != [] && ticks[0].Poll? {
      var t := ticks[0];
      if t.lookup.Found? && t.lookup.record.collectedAt > lastSent && t.marshalOk && t.writeOk {
        PollEventsIncrease(t.lookup.record.collectedAt, ticks[1..]);
      } else {
        PollEventsIncrease(lastSent, ticks[1..]);
      }
    }
  }

  /**
   * The whole handler: no flusher gives 500 and an empty agent id 400,
   * before any event. Otherwise the latest record is sent first when there
   * is one and it marshals, and becomes `lastSent`; a failed initial lookup
   * ends the stream, a missing record does not. Then the poll loop runs.
   */
  function StreamEvents(flusherOk: bool, agentId: string, initial: LatestLookup,
                        marshalOk: bool, writeOk: bool, ticks: seq<Tick>): StreamResult
  {
    if !flusherOk then Rejected(500, "streaming unsupported")
    else if agentId == "" then Rejected(400, "agent_id is required")
    else match initial
      case LookupFailed(_) => Streamed([], InitialLoadFailed)
      case NotFound => var p := PollEvents(ZeroTime, ticks); Streamed(p.0, p.1)
      case Found(record) =>
        if !marshalOk then var p := PollEvents(ZeroTime, ticks); Streamed(p.0, p.1)
        else if !writeOk then Streamed([], WriteFailed)
        else var p := PollEvents(record.collectedAt, ticks); Streamed([record] + p.0, p.1)
  }

  /** A tick whose record is sent (or whose write is attempted): found, newer than `last`, marshalled. */
  predicate Sends(last: int, t: Tick) {
    t.Poll? && t.lookup.Found? && t.lookup.record.collectedAt > last && t.marshalOk
  }

  /** One turn of the poll loop, as PollEvents takes it. */
  lemma PollStep(last: int, ticks: seq<Tick>, i: nat)
    requires i < |ticks|
    ensures ticks[i].ClientGone? ==> PollEvents(last, ticks[i..]) == ([], Disconnected)
    ensures ticks[i].Poll? && !Sends(last, ticks[i]) ==> PollEvents(last, ticks[i..]) == PollEvents(last, ticks[i + 1..])
    ensures Sends(last, ticks[i]) && !ticks[i].writeOk ==> PollEvents(last, ticks[i..]) == ([], WriteFailed)
    ensures Sends(last, ticks[i]) && ticks[i].writeOk ==>
              var record := ticks[i].lookup.record;
              PollEvents(last, ticks[i..]) ==
                ([record] + PollEvents(record.collectedAt, ticks[i + 1..]).0, PollEvents(record.collectedAt, ticks[i + 1..]).1)
  {
    assert ticks[i..][0] == ticks[i] && ticks[i..][1..] == ticks[i + 1..];
  }

  /**
   * The poll loop of `handleStream` from `lastSent` over `ticks`: the
   * records sent as events, in order, and why the loop ended. Every event is
   * strictly newer than the one before it and than `lastSent`.
   */
  method PollLoop(lastSent: int, ticks: seq<Tick>) returns (sent: seq<Record>, end: StreamEnd)
    ensures (sent, end) == PollEvents(lastSent, ticks)
    ensures History.StrictlyIncreasing(sent)
    ensures forall r :: r in sent ==> r.collectedAt > lastSent
  {
    sent := [];
    var last := lastSent;
    assert ticks[0..] == ticks;
    var i := 0;
    while i < |ticks|
      invariant 0 <= i <= |ticks|
      invariant PollEvents(lastSent, ticks).0 == sent + PollEvents(last, ticks[i..]).0
      invariant PollEvents(lastSent, ticks).1 == PollEvents(last, ticks[i..]).1
      invariant History.StrictlyIncreasing(sent)
      invariant lastSent <= last
      invariant forall j :: 0 <= j < |sent| ==> lastSent < sent[j].collectedAt <= last
    {
      PollStep(last, ticks, i);
      if ticks[i].ClientGone? {
        assert sent + [] == sent;
        return sent, Disconnected;
      }
      if Sends(last, ticks[i]) {
        if !ticks[i].writeOk {
          assert sent + [] == sent;
          return sent, WriteFailed;
        }
        var record := ticks[i].lookup.record;
        assert sent + ([record] + PollEvents(record.collectedAt, ticks[i + 1..]).0)
               == (sent + [record]) + PollEvents(record.collectedAt, ticks[i + 1..]).0;
        sent := sent + [record];
        last := record.collectedAt;
      }
      i := i + 1;
    }
    assert ticks[i..] == [] && sent + [] == sent;
    end := StillStreaming;
  }

  /**
   * `handleStream` for one request: `flusherOk` says whether the writer can
   * flush, `initial` is the first `Latest` answer with the outcome of
   * marshalling and writing it, `ticks` the later turns of the loop.
   * Returns the rejection, or the records sent as events in order and why
   * the stream ended. The events are strictly increasing in time.
   */
  method HandleStream(flusherOk: bool, agentId: string, initial: LatestLookup,
                      marshalOk: bool, writeOk: bool, ticks: seq<Tick>)
    returns (result: StreamResult)
    ensures result == StreamEvents(flusherOk, agentId, initial, marshalOk, writeOk, ticks)
    ensures result.Rejected? <==> !flusherOk || agentId == ""
    ensures !flusherOk ==> result == Rejected(500, "streaming unsupported")
    ensures flusherOk && agentId == "" ==> result == Rejected(400, "agent_id is required")
    ensures result.Streamed? ==> History.StrictlyIncreasing(result.sent)
    ensures result.Streamed? && initial.LookupFailed? ==> result == Streamed([], InitialLoadFailed)
    ensures result.Streamed? && (initial.NotFound? || (initial.Found? && !marshalOk)) ==>
              (result.sent, result.end) == PollEvents(ZeroTime, ticks)
    ensures result.Streamed? && initial.Found? && marshalOk && !writeOk ==> result == Streamed([], WriteFailed)
    ensures result.Streamed? && initial.Found? && marshalOk && writeOk ==>
              result.sent != [] && result.sent[0] == initial.record &&
              (result.sent[1..], result.end) == PollEvents(initial.record.collectedAt, ticks)
  {
    if !flusherOk {
      return Rejected(500, "streaming unsupported");
    }
    if agentId == "" {
      return Rejected(400, "agent_id is required");
    }
    var lastSent := ZeroTime;
    match initial {
      case LookupFailed(_) =>
        return Streamed([], InitialLoadFailed);
      case NotFound =>
        var sent, end := PollLoop(lastSent, ticks);
        return Streamed(sent, end);
      case Found(record) =>
        if !marshalOk {
          var sent, end := PollLoop(lastSent, ticks);
          return Streamed(sent, end);
        }
        if !writeOk {
          return Streamed([], WriteFailed);
        }
        lastSent := record.collectedAt;
        var sent, end := PollLoop(lastSent, ticks);
        return Streamed([record] + sent, end);
    }
  }
}
