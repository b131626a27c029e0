# TelemetryX core, modelled in Dafny

TelemetryX collects host metrics. An agent samples a machine and streams the
samples over gRPC to a server. The server derives per-second rates, stores the
records, and serves them to a web dashboard over HTTP: a JSON history or
summary, and a server-sent event stream. This project models the logic of that
pipeline and proves what it promises.

- **The dashboard's live-sync hook** (`useTelemetryData`). This is the main part.
  - `History` models the pushed-sample history reducer: append, dedup by timestamp with the later record winning, stable sort by time, keep the newest 120.
  - `Reducers` models the roster and `latest` reducers, the directory refresh, the decoding of a fetch, the bootstrap ordering and the `enrichedAgents` overlay.
  - `Backoff` models the reconnect delay.
  - `TelemetrySync.TelemetryHook` is a class with one method per event the hook reacts to: a prop change, unmounting, a source opening, delivering a message or failing, a reconnect timer firing, a fetch resolving. Its fields are the React state, the refs and the per-run `cancelled`/`disposed` flags.
    - An `EventSource` is a number, and the hook keeps the map of open sources to the agent each subscribes to.
    - A pending `setTimeout` is a `Timer` value.
    - A history fetch is identified by the generation of the effect run that started it.
  - `HookState` states the invariants the hook keeps between events:
    - at most one open source, and it is the ref's;
    - at most one pending timer, and only while nothing is open;
    - nothing open or pending once disposed;
    - open sources subscribe to the selected agent;
    - the delay stays between 1 s and 30 s.
  - Three scenario methods check concrete runs through the class interface:
    - `BackoffScenario`: three consecutive failures wait 1 s, 2 s and 4 s;
    - `ReopenScenario`: after a failure and a successful reopen, the next failure waits 1 s again;
    - `TeardownScenario`: after switching agents, a late message on the old source and a late fetch of the old run change nothing.
- **Rate enrichment and ingest** (`Service`, internal/server/service.go):
  - `ratePerSecond`, `convertMetric`;
  - the per-agent `previous` table of `enrichWithRates`, a class field updated in place;
  - the receive loop of `StreamMetrics`, specified by a fold over the received messages.
- **HTTP handlers** (`HttpApi`, internal/server/http.go):
  - the `limit` parameter (with `strconv.Atoi` written out);
  - the history and summary answers of `/api/metrics`;
  - the `/api/metrics/stream` event loop, whose `lastSent` filter makes the emitted timestamps strictly increasing.
- **Configuration** (`Env`, `AgentConfig`, `ServerConfig`): `getenv`, `strings.TrimSpace` (with the `unicode.IsSpace` set written out), `hostFromAddr`, and the defaults and ordered checks of both `LoadConfig` functions.

Behaviour worth noting:
- The roster update sets an agent's `latest` to the pushed sample with no timestamp check, so it can move back in time (`Reducers.ApplySampleCanRegress`).
- `onmessage` does not compare the payload's agent id with the selected one.
- The bootstrap neither dedups nor caps the fetched history, so several records can share the newest time.
- Deselecting while the bootstrap fetch is in flight leaves `loading` set: the cancelled run never reaches its `setLoading(false)` (`TelemetrySync.TelemetryHook.Select`).

Timestamps are integers in nanoseconds since the Unix epoch. The dashboard receives `collectedAt` as an ISO-8601 string, keys its dedup Map by that string and sorts by the parsed time. The model assumes that string and time correspond one to one, so a single integer serves as both keys.

## Model

| member | source | states |
|---|---|---|
| Env.Getenv | internal/agent/config.go:80-85 | a set variable wins even when empty; the fallback only when unset |
| Env.GetenvSetWins | internal/server/config.go:47-52 | setting a variable, even to "", overrides the fallback; other variables do not affect it |
| ServerConfig.Settings | internal/server/config.go:20-26 | each field is its variable when set, even to "", else the default: ":50051", ":8080", the dev cert and key paths, and "" for the DSN |
| ServerConfig.LoadConfig | internal/server/config.go:19-45 | succeeds exactly when all five settings are non-empty, returning them; otherwise the first empty one, in order gRPC, HTTP, cert, key, DSN, gives its own error text |
| ServerConfig.DsnIsRequired | internal/server/config.go:40-44 | without the DSN variable loading always fails; with only the DSN set every other field takes its default |
| ServerConfig.EmptyOverridesDefault | internal/server/config.go:28-30 | an address set to "" is not defaulted and fails the first check |
| AgentConfig.TrimSpace | internal/agent/config.go:88 | the infix of the input after leading and before trailing white space; neither end is white space; empty exactly when the input is all white space |
| AgentConfig.HostFromAddr | internal/agent/config.go:87-103 | a split address gives its host, or "localhost" for an empty host; an unsplittable one gives "" when blank, "localhost" when it starts with ':', else itself trimmed; "" exactly for a blank unsplittable address |
| AgentConfig.BlankAddressHasNoHost | internal/agent/config.go:96-98 | a blank or all-white-space address has host "" |
| AgentConfig.UnsplittableAddress | internal/agent/config.go:99-102 | an address with no colon and some text is its own host, trimmed and non-empty |
| AgentConfig.AgentIdOf | internal/agent/config.go:44-51 | the agent id is the variable when set, else the host name, else "unknown-agent" |
| AgentConfig.ServerNameOf | internal/agent/config.go:70-75 | never empty: the variable when set and non-empty, else the host of the server address, else "localhost" |
| AgentConfig.LoadConfig | internal/agent/config.go:29-78 | an unparsable interval, then an unparsable dial timeout, is the error; on success the address and CA path are the (defaulted) variables and non-empty, both durations are the parsed values and positive, the agent id and server name follow their fallbacks |
| AgentConfig.LoadConfigChecks | internal/agent/config.go:58-69 | once both durations parse, success exactly when address and CA path are non-empty and both durations positive; the first failing check (address, interval, dial timeout, CA path) decides the error |
| AgentConfig.DefaultConfig | internal/agent/config.go:30-32 | with nothing set: 127.0.0.1:50051, 2 s, 5 s, the dev CA, the host name as id, server name 127.0.0.1 |
| Backoff.NextDelay | web/dashboard/src/hooks/useTelemetryData.ts:119 | a firing timer sets the delay to min(2·delay, 30000) |
| Backoff.DelayAfter | web/dashboard/src/hooks/useTelemetryData.ts:108-121 | the delay after n timer firings since the last reset to 1000 ms (a definition; its properties are the lemmas below) |
| Backoff.DelayClosedForm | web/dashboard/src/hooks/useTelemetryData.ts:115-121 | after n firings since a reset the delay is min(1000·2^n, 30000) |
| Backoff.DelayBounds | web/dashboard/src/hooks/useTelemetryData.ts:108-119 | the delay stays between 1000 and 30000 |
| Backoff.DelaySchedule | web/dashboard/src/hooks/useTelemetryData.ts:115-121 | the waits are 1 s, 2 s, 4 s, … and 30 s from the fifth firing on |
| History.SetByKeyAppends | web/dashboard/src/hooks/useTelemetryData.ts:140 | `map.set` with a new key adds the record as the last entry |
| History.SetByKeyReplaces | web/dashboard/src/hooks/useTelemetryData.ts:140 | `map.set` with an existing key keeps the entry's position and takes the new record |
| History.SetByKey | web/dashboard/src/hooks/useTelemetryData.ts:140 | `map.set(record.collectedAt, record)` on the Map's entries in insertion order (a definition; see the lemmas around it) |
| History.Dedup | web/dashboard/src/hooks/useTelemetryData.ts:139-140 | the Map reduce over the appended history (a definition; see DedupKeys, DedupLastWins, DedupOfDistinct) |
| History.SortByTime | web/dashboard/src/hooks/useTelemetryData.ts:141-144 | the sort by parsed time, as an insertion sort (a definition; see the SortByTime lemmas) |
| History.DedupKeys | web/dashboard/src/hooks/useTelemetryData.ts:139-140 | the Map reduce keeps one entry per key, and exactly the keys of the input |
| History.DedupLastWins | web/dashboard/src/hooks/useTelemetryData.ts:139-140 | every entry kept is the last record that arrived with its key |
| History.DedupOfDistinct | web/dashboard/src/hooks/useTelemetryData.ts:139-140 | on input with distinct keys the Map reduce is the identity |
| History.SortByTimeSorted | web/dashboard/src/hooks/useTelemetryData.ts:141-144 | the sort's output is ascending in time |
| History.SortByTimePermutes | web/dashboard/src/hooks/useTelemetryData.ts:141-144 | the sort's output is a permutation of its input |
| History.SortByTimeStable | web/dashboard/src/hooks/useTelemetryData.ts:141-144 | records with equal time keep their input order |
| History.SortByTimeIsStableSort | web/dashboard/src/hooks/useTelemetryData.ts:141-144 | the sort is a stable ascending sort: ascending, same multiset, ties in input order |
| History.SortOfDistinct | web/dashboard/src/hooks/useTelemetryData.ts:141-144 | sorting records with distinct times gives strictly increasing times |
| History.SortOfSorted | web/dashboard/src/hooks/useTelemetryData.ts:141-144 | sorting an ascending sequence changes nothing |
| History.Newest | web/dashboard/src/hooks/useTelemetryData.ts:145 | `slice(-n)` for n > 0 (the only use is n = 120): min(n, length) long and a suffix of its input; unlike `slice(-0)`, n = 0 gives the empty list |
| History.NewestOfAscending | web/dashboard/src/hooks/useTelemetryData.ts:145 | `slice(-n)` of a strictly ascending list is strictly ascending, min(n, length) long, and every record it drops is older than every record it keeps |
| History.PushSample | web/dashboard/src/hooks/useTelemetryData.ts:137-146 | the `setHistory` reducer of `onmessage`: append, dedup, sort, keep the newest 120 (a definition; see PushSampleSpec) |
| History.PushSampleSpec | web/dashboard/src/hooks/useTelemetryData.ts:137-146 | after a pushed sample the history is strictly ascending, at most 120 long, holds the last-arrived record for each of its keys, holds min(120, distinct keys seen) records, and every key dropped is older than every key kept |
| History.PushSampleSorted | web/dashboard/src/hooks/useTelemetryData.ts:137-146 | the pushed history is ascending |
| History.PushSampleKeepsPayload | web/dashboard/src/hooks/useTelemetryData.ts:137-146 | the pushed sample is kept whenever its time is, and is dropped only from a full buffer of strictly newer records |
| History.PushInOrder | web/dashboard/src/hooks/useTelemetryData.ts:137-146 | a sample newer than an ascending history is appended, the oldest dropped when over 120 |
| History.PushDuplicate | web/dashboard/src/hooks/useTelemetryData.ts:137-146 | a sample whose time is already present overwrites that entry in place, neither growing nor reordering the history |
| History.LastSample | web/dashboard/src/hooks/useTelemetryData.ts:76 | `ordered[ordered.length - 1]`: absent exactly for an empty list, else its last element, which in an ascending list is at least as new as every other |
| Reducers.FetchBody | web/dashboard/src/hooks/useTelemetryData.ts:28-32 | only an ok status with a decoded body gets through; a non-ok status raises the request's status error; a failed fetch raises its message |
| Reducers.RefreshAgents | web/dashboard/src/hooks/useTelemetryData.ts:26-42 | on success the roster is replaced by the directory (`agents ?? []`) and the error cleared; on failure only the error is set; a non-ok status gives the overview error |
| Reducers.ResolveHistory | web/dashboard/src/hooks/useTelemetryData.ts:62-81 | the bootstrap update keeps the history ascending |
| Reducers.Fetched | web/dashboard/src/hooks/useTelemetryData.ts:71 | `records ?? []` |
| Reducers.ResolveHistoryOutcome | web/dashboard/src/hooks/useTelemetryData.ts:62-81 | a failed bootstrap sets only the error; a successful one makes the history exactly the fetched records, ascending, same multiset, ties in fetched order, with no dedup or cap, and `latest` its newest record, the error untouched |
| Reducers.ApplySample | web/dashboard/src/hooks/useTelemetryData.ts:147-156 | every prior entry keeps its position and id, entries of the payload's agent get the payload as `latest`, others are untouched, an unseen agent is appended, nothing is removed |
| Reducers.ApplySampleKeepsIdsUnique | web/dashboard/src/hooks/useTelemetryData.ts:147-156 | a roster with unique ids keeps them unique |
| Reducers.ApplySampleCanRegress | web/dashboard/src/hooks/useTelemetryData.ts:150 | an older sample replaces a newer `latest` on the roster |
| Reducers.NextLatest | web/dashboard/src/hooks/useTelemetryData.ts:157-164 | the first sample is taken; later the payload wins exactly when it is not older; the result is never older than either |
| Reducers.LatestAfter | web/dashboard/src/hooks/useTelemetryData.ts:157-164 | `latest` after a series of pushed samples (a definition; see LatestIsMonotone) |
| Reducers.LatestIsMonotone | web/dashboard/src/hooks/useTelemetryData.ts:157-164 | over any series of samples `latest` never moves back in time, is at least as new as each sample, and is the start or one of them |
| Reducers.LastForAgent | web/dashboard/src/hooks/useTelemetryData.ts:208 | the Map built from the history yields, for an id, the last history record of that agent, absent exactly when it has none |
| Reducers.EnrichedAgents | web/dashboard/src/hooks/useTelemetryData.ts:201-213 | an empty roster or history gives the roster as is; otherwise same length, order and ids, each agent with history records showing its last one, the others keeping their `latest` |
| Reducers.EnrichedKeepsIds | web/dashboard/src/hooks/useTelemetryData.ts:209-212 | the overlay keeps the roster's agent ids, in order |
| Reducers.EnrichedShowsNewestOfSelected | web/dashboard/src/hooks/useTelemetryData.ts:201-213 | for a sorted history of one agent, that agent's entries show the newest history record and every other entry is untouched |
| TelemetrySync.TelemetryHook.constructor | web/dashboard/src/hooks/useTelemetryData.ts:16-110 | mounting starts from empty state; without a selection nothing is open; with one the bootstrap fetch is in flight, loading, and one source is open on the agent with a 1000 ms delay |
| TelemetrySync.TelemetryHook.Cleanup | web/dashboard/src/hooks/useTelemetryData.ts:178-191 | the bootstrap run is cancelled, the stream run disposed, its source closed and its pending timer cleared, keeping the invariant |
| TelemetrySync.TelemetryHook.BootstrapEffect | web/dashboard/src/hooks/useTelemetryData.ts:48-61 | without a selection history and `latest` are cleared; with one a new run starts, loading, error cleared |
| TelemetrySync.TelemetryHook.StreamEffect | web/dashboard/src/hooks/useTelemetryData.ts:96-110 | without a selection nothing changes; with one the delay resets to 1000 ms and one new source opens on the agent |
| TelemetrySync.TelemetryHook.RunEffects | web/dashboard/src/hooks/useTelemetryData.ts:48-176 | the two selection effects in declaration order: without a selection history and `latest` are cleared and loading, error, fetch and delay are untouched; with one a new run is loading with one source open |
| TelemetrySync.TelemetryHook.Select | web/dashboard/src/hooks/useTelemetryData.ts:48-192 | an unchanged prop changes nothing; a new one cancels the old run and leaves no timer pending and only sources of the new agent open; deselecting clears history and `latest` and leaves loading, error, fetch and delay as they were; selecting restarts fetch and stream; the roster, mount state and timer counter never change |
| TelemetrySync.TelemetryHook.Unmount | web/dashboard/src/hooks/useTelemetryData.ts:194-199 | after unmounting nothing is open or pending and every run is cancelled and disposed |
| TelemetrySync.TelemetryHook.Connect | web/dashboard/src/hooks/useTelemetryData.ts:124-129 | a no-op once disposed; otherwise a fresh source on the selected agent becomes the ref's and the only one open |
| TelemetrySync.TelemetryHook.ScheduleReconnect | web/dashboard/src/hooks/useTelemetryData.ts:111-122 | a no-op once disposed; otherwise exactly one timer with the current delay is pending and is the ref's |
| TelemetrySync.TelemetryHook.OnOpen | web/dashboard/src/hooks/useTelemetryData.ts:131-133 | an open source resets the delay to 1000 ms; a closed one changes nothing |
| TelemetrySync.TelemetryHook.VisibleAgents | web/dashboard/src/hooks/useTelemetryData.ts:201-216 | the returned `agents`: the roster state's ids in order, each agent showing its last history record when it has one, else its own `latest` |
| TelemetrySync.TelemetryHook.OnMessage | web/dashboard/src/hooks/useTelemetryData.ts:135-165 | a message on an open source that parses updates history, roster and `latest` by their reducers without checking its agent; a closed source or unparsable data changes nothing; `latest` never moves back; the payload's agent then appears in the returned roster |
| TelemetrySync.TelemetryHook.TakeSample | web/dashboard/src/hooks/useTelemetryData.ts:137-164 | history, roster and `latest` become the pushed-sample, roster and `latest` updates of the payload, keeping the history ascending |
| TelemetrySync.TelemetryHook.OnError | web/dashboard/src/hooks/useTelemetryData.ts:167-173 | a failing open source is closed, the ref forgets it and one reconnect timer with the current delay is scheduled; only the source and timer fields change; a closed source changes nothing |
| TelemetrySync.TelemetryHook.TimerFires | web/dashboard/src/hooks/useTelemetryData.ts:116-121 | the pending timer firing clears the ref, sets the delay to min(2·delay, 30000) and opens a new source; only the source, timer and delay fields change; any other timer id changes nothing |
| TelemetrySync.TelemetryHook.BootstrapResolves | web/dashboard/src/hooks/useTelemetryData.ts:62-93 | a fetch of a stale or cancelled run changes no state; a live one applies the bootstrap update and ends loading |
| TelemetrySync.TelemetryHook.TakeHistory | web/dashboard/src/hooks/useTelemetryData.ts:70-81 | history, `latest` and error become the bootstrap update of the response, keeping the history ascending |
| TelemetrySync.TelemetryHook.RefreshResolves | web/dashboard/src/hooks/useTelemetryData.ts:26-42 | while mounted the roster and error become the refresh update; after unmounting nothing changes |
| Service.RatePerSecond | internal/server/service.go:76-88 | never negative; 0 for a non-positive interval or a counter that went down; otherwise rate times interval is the increase |
| Service.ElapsedSeconds | internal/server/service.go:64 | the elapsed time in seconds, (to − from)/10^9, positive exactly when the record is later than the previous one |
| Service.WithRates | internal/server/service.go:62-71 | only the four rate fields can change; they change only when a previous record exists and is strictly earlier, then to the counters' rates over the elapsed time |
| Service.ConvertMetric | internal/server/service.go:90-120 | a nil metric or empty agent id is rejected; otherwise the fields are copied, rates are zero, and the time is the metric's or else the clock's |
| Service.ConvertRoundTrip | internal/server/service.go:100-119 | converting a record's message gives the record back exactly when it has an agent id and zero rates |
| Service.Ingest | internal/server/service.go:32-74 | the receive loop as a fold over the received messages (a definition; see the lemmas below and StreamMetrics) |
| Service.IngestKeepsTable | internal/server/service.go:32-74 | the receive loop keeps the table keyed by agent, and every record saved has an agent id and non-negative rates |
| Service.InvalidMessageSkipped | internal/server/service.go:43-47 | a message that fails conversion leaves no trace |
| Service.FailedSaveStillUpdatesTable | internal/server/service.go:49-54 | a failed save stores nothing but the table already holds the enriched record |
| Service.StopsAtFirstError | internal/server/service.go:34-41 | EOF completes and any other receive error aborts with it, saving nothing further |
| Service.TelemetryService.constructor | internal/server/service.go:27-29 | a new service has an empty table |
| Service.TelemetryService.EnrichWithRates | internal/server/service.go:58-74 | the result is the record rated against the agent's previous entry, which it then replaces; other entries stay |
| Service.TelemetryService.StreamMetrics | internal/server/service.go:32-56 | the outcome, the saved records in order and the new table are those of the receive-loop fold |
| HttpApi.Atoi | internal/server/http.go:38 | an optional sign followed by one or more digits parses to its (signed) value when that fits an int64; anything else is an error |
| HttpApi.AtoiOfDecimal | internal/server/http.go:38 | a natural number in decimal, with or without '+', parses back to itself exactly when it fits an int64 |
| HttpApi.AtoiOfNegative | internal/server/http.go:38 | '-' and the digits of n parse to −n exactly when that fits an int64 |
| HttpApi.ParseLimit | internal/server/http.go:36-41 | the limit is positive; it is the parameter's value exactly when that parses to a positive integer, 60 otherwise |
| HttpApi.LimitExamples | internal/server/http.go:36-41 | "", "0", "-3", "abc" and " 5" give 60; "120" and "+5" give 120 and 5 |
| HttpApi.SummaryOf | internal/server/http.go:67-82 | the summary of a directory (a definition; see SummaryIsFilteredDirectory) |
| HttpApi.SummaryIsFilteredDirectory | internal/server/http.go:67-82 | the summary ids are a subsequence of the directory, and a summary entry exists exactly for each agent whose latest record was found, carrying it |
| HttpApi.Summarize | internal/server/http.go:67-82 | the summary loop computes that filtered directory, never longer than it |
| HttpApi.HandleMetrics | internal/server/http.go:31-87 | with an agent id the page of `List(id, limit)` or 500 on its error; without one the filtered summary or 500 when the directory fails |
| HttpApi.PollEvents | internal/server/http.go:129-155 | the events the poll loop sends after `lastSent` and why it stops (a definition; see PollEventsIncrease) |
| HttpApi.StreamEvents | internal/server/http.go:89-156 | the outcome of the whole stream handler (a definition; HandleStream is proved equal to it) |
| HttpApi.PollEventsIncrease | internal/server/http.go:129-155 | the events of the poll loop are strictly increasing in time and newer than `lastSent`, so none is sent twice |
| HttpApi.PollLoop | internal/server/http.go:129-155 | the loop sends the events of the poll specification, strictly increasing and newer than `lastSent`, and stops on a failed write or a gone client |
| HttpApi.HandleStream | internal/server/http.go:89-156 | 500 without a flusher and 400 without an agent id, before any event; an initial load error ends the stream with nothing sent; a missing or unmarshalable initial record starts polling from the zero time; a written initial record is sent first and polling starts after it; a failed initial write ends the stream; the events are strictly increasing |

## Left out

- Fetch, `EventSource`, `setTimeout` and `clearTimeout` are abstracted as events with numeric identities. URLs, query strings and headers are not modelled.
- `JSON.parse` and `res.json()` are reduced to whether they yield a value. The error slot holds the cause (`HookError`), not the formatted message text.
- ISO-8601 `collectedAt` strings and their `Date` parsing are not modelled. One integer serves as both the dedup key and the sort key, which assumes the string and the parsed time correspond one to one.
- React's batching and render timing are not modelled. The cleanups of all effects run before any effect body, and a state update after unmount is ignored.
- The unmount-only effect's second close of the ref's source (web/dashboard/src/hooks/useTelemetryData.ts:194-199) is subsumed by the stream cleanup, which has already closed it.
- Service.RatePerSecond: uses `real`, so the float64 rounding of `Seconds()` and of the division, and the NaN/infinity guard (internal/server/service.go:84-86), are not modelled.
- Service.ElapsedSeconds: does not model `time.Duration` saturation of `Sub` for times more than about 292 years apart.
- The mutex in `enrichWithRates` is not modelled. Calls are sequential.
- Service.TelemetryService.StreamMetrics: the store's `Save` is a per-message boolean, the clock a per-message parameter, and logging is not modelled. When the modelled input runs out, the outcome is `Receiving`.
- The store (internal/server/storage/postgres.go is not part of this model) is replaced by what its calls return: `List` and `Latest` are functions of their arguments, `Agents` a value, and each poll of the stream carries its `Latest` answer.
- HttpApi.HandleStream: `json.Marshal` and the writes are booleans. Headers, the ticker's one-second period, flushing and the JSON bodies of `writeError` (internal/server/http.go:171-180) are reduced to a status and message. The loop runs over a finite sequence of ticks.
- `handleAgents` (internal/server/http.go:158-169) is not modelled. It passes the store's directory straight to the encoder.
- AgentConfig.LoadConfig: `time.ParseDuration`, `os.Hostname` and `net.SplitHostPort` are parameters. Two facts of `net.SplitHostPort` are assumed, each only by the lemma that needs it: an address without a colon does not split (`BlankAddressHasNoHost`, `UnsplittableAddress`), and "127.0.0.1:50051" splits to host "127.0.0.1" (`DefaultConfig`). The error values keep the cause, not the `fmt.Errorf` text.
- Process wiring, gRPC and TLS clients, metric sampling and the dashboard's rendering components are outside the modelled core.
