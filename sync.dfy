/**
 * The live-sync hook `useTelemetryData` (web/dashboard/src/hooks/useTelemetryData.ts)
 * as an object whose methods are the events the hook reacts to.
 *
 * React state (`agents`, `history`, `latest`, `loading`, `error`), the refs
 * (`eventSourceRef`, `reconnectTimerRef`, `retryDelayRef`) and the per-run
 * flags of the two selection effects (`cancelled`, `disposed`) are fields.
 * The browser objects are replaced by identities:
 *   - an `EventSource` is a number; `openSources` maps every source that has
 *     not been closed to the agent it subscribes to, and a closed source
 *     delivers no events;
 *   - a `window.setTimeout` is a Timer in `pendingTimers` until it fires or is
 *     cleared;
 *   - a history fetch is identified by the generation of the effect run that
 *     started it.
 * Events: the prop changes (Select), the component unmounts (Unmount), a
 * source opens, delivers a message or fails (OnOpen, OnMessage, OnError), a
 * timer fires (TimerFires), a fetch resolves (BootstrapResolves,
 * RefreshResolves).
 */
module TelemetrySync {
  import opened Wrappers
  import opened Telemetry
  import History
  import opened Reducers
  import opened Backoff
  import opened HookState

  class TelemetryHook {
    // React state returned by the hook
    var agents: seq<AgentSummary>
    var history: seq<Record>
    var latest: Option<Record>
    var loading: bool
    var error: Option<HookError>

    /** The `agentId` argument of the latest render. */
    var selected: Option<string>
    var mounted: bool

    // The bootstrap effect: the generation of its latest run, that run's
    // `cancelled` flag, and whether its fetch has yet to resolve.
    var fetchGen: nat
    var cancelled: bool
    var inFlight: bool

    // The stream effect
    var eventSource: Option<nat>        // eventSourceRef.current
    var openSources: map<nat, string>   // sources not yet closed, with the agent each subscribes to
    var nextSource: nat
    var reconnectTimer: Option<nat>     // reconnectTimerRef.current
    var pendingTimers: seq<Timer>
    var nextTimer: nat
    var retryDelay: int                 // retryDelayRef.current
    var disposed: bool                  // `disposed` of the latest run (true when no run is live)

    /** The history buffer is ascending. */
    ghost predicate HistoryOk()
      reads this`history
    {
      History.Sorted(history)
    }

    /** The stream invariant over the refs of the stream effect. */
    ghost predicate StreamOk()
      reads this`openSources, this`eventSource, this`nextSource, this`pendingTimers, this`reconnectTimer,
            this`retryDelay, this`disposed, this`selected
    {
      StreamInvariant(openSources, eventSource, nextSource, pendingTimers, reconnectTimer,
                      retryDelay, disposed, selected)
    }

    /** The lifecycle invariant over the cancellation flag and the mount state. */
    ghost predicate LifecycleOk()
      reads this`cancelled, this`selected, this`mounted, this`disposed
    {
      LifecycleInvariant(cancelled, selected, mounted, disposed)
    }

    /** The stream and lifecycle invariants, and an ascending history. */
    ghost predicate Consistent()
      reads this
    {
      HistoryOk() && StreamOk() && LifecycleOk()
    }

    /** Between events, in addition, a live run always has a source open or a timer pending. */
    ghost predicate Valid()
      reads this
    {
      Consistent() && (!disposed ==> |openSources| + |pendingTimers| > 0)
    }

    /**
     * The roster the hook returns: `enrichedAgents`. It lists the agents of
     * the roster state, in order; an agent with a record in the history shows
     * its last history record, every other agent its own `latest`.
     */
    function VisibleAgents(): (r: seq<AgentSummary>)
      reads this
      ensures Ids(r) == Ids(agents)
      ensures forall i :: 0 <= i < |agents| ==>
                r[i].latest == (if LastForAgent(history, agents[i].agentId).Some?
                                then LastForAgent(history, agents[i].agentId) else agents[i].latest)
    {
      EnrichedKeepsIds(agents, history);
      EnrichedAgents(agents, history)
    }

    /**
     * Mounting with `agentId`: empty state, then the effects run in
     * declaration order (the directory refresh is started; its resolution is
     * RefreshResolves).
     */
    constructor(agentId: Option<string>)
      ensures Valid() && mounted
      ensures agents == [] && selected == agentId && loading == !NoSelection(agentId) && error == None
      ensures history == [] && latest == None
      ensures NoSelection(agentId) ==> disposed && cancelled && openSources == map[] && pendingTimers == []
      ensures !NoSelection(agentId) ==>
                !disposed && !cancelled && inFlight && retryDelay == InitialDelay && pendingTimers == [] &&
                eventSource == Some(0) && openSources == map[0 := agentId.value]
    {
      agents, history, latest, loading, error := [], [], None, false, None;
      selected, mounted := agentId, true;
      fetchGen, cancelled, inFlight := 0, true, false;
      eventSource, openSources, nextSource := None, map[], 0;
      reconnectTimer, pendingTimers, nextTimer := None, [], 0;
      retryDelay, disposed := InitialDelay, true;
      new;
      RunEffects();
    }

    /**
     * The cleanups of the two selection effects: the bootstrap run is
     * cancelled; the stream run is disposed, its current source closed and
     * its pending timer cleared.
     */
    method Cleanup()
      requires Valid()
      modifies this`cancelled, this`disposed, this`openSources, this`eventSource, this`pendingTimers, this`reconnectTimer
      ensures Valid()
      ensures cancelled && disposed
      ensures openSources == map[] && eventSource == None && pendingTimers == [] && reconnectTimer == None
    {
      cancelled := true;
      disposed := true;
      if eventSource.Some? {
        openSources := openSources - {eventSource.value};
        eventSource := None;
      }
      if reconnectTimer.Some? {
        pendingTimers := [];
        reconnectTimer := None;
      }
    }

    /**
     * The body of the bootstrap effect. Without a selection the history and
     * `latest` are cleared. With one, a new run starts its fetch, sets
     * `loading` and clears the error.
     */
    method BootstrapEffect()
      requires Consistent() && mounted && cancelled
      modifies this`history, this`latest, this`fetchGen, this`cancelled, this`inFlight, this`loading, this`error
      ensures Consistent()
      ensures NoSelection(selected) ==>
                history == [] && latest == None && unchanged(this`fetchGen, this`cancelled, this`inFlight, this`loading, this`error)
      ensures !NoSelection(selected) ==>
                unchanged(this`history, this`latest) && fetchGen == old(fetchGen) + 1 &&
                !cancelled && inFlight && loading && error == None
    {
      if NoSelection(selected) {
        history := [];
        latest := None;
      } else {
        fetchGen := fetchGen + 1;
        cancelled := false;
        inFlight := true;
        loading := true;
        error := None;
      }
    }

    /**
     * The body of the stream effect. Without a selection nothing is left to
     * close (the previous run's cleanup closed it). With one, the delay is
     * reset to 1000 ms, a new run starts and `connect` opens its source.
     */
    method StreamEffect()
      requires Consistent() && mounted && disposed
      requires openSources == map[] && eventSource == None && pendingTimers == []
      modifies this`retryDelay, this`disposed, this`eventSource, this`openSources, this`nextSource
      ensures Valid()
      ensures NoSelection(selected) ==> unchanged(this)
      ensures !NoSelection(selected) ==>
                retryDelay == InitialDelay && !disposed && pendingTimers == [] &&
                eventSource == Some(old(nextSource)) && openSources == map[old(nextSource) := selected.value] &&
                nextSource == old(nextSource) + 1
    {
      if !NoSelection(selected) {
        retryDelay := InitialDelay;
        disposed := false;
        Connect();
      }
    }

    /** Both selection effects, in declaration order. */
    method RunEffects()
      requires Valid() && mounted && cancelled && disposed
      requires openSources == map[] && eventSource == None && pendingTimers == []
      modifies this`history, this`latest, this`fetchGen, this`cancelled, this`inFlight, this`loading, this`error
      modifies this`retryDelay, this`disposed, this`eventSource, this`openSources, this`nextSource
      ensures Valid()
      ensures NoSelection(selected) ==>
                history == [] && latest == None && disposed && cancelled &&
                openSources == map[] && pendingTimers == [] &&
                unchanged(this`loading, this`error, this`fetchGen, this`inFlight, this`retryDelay, this`eventSource, this`nextSource)
      ensures !NoSelection(selected) ==>
                unchanged(this`history, this`latest) && loading && error == None &&
                fetchGen == old(fetchGen) + 1 && !cancelled && inFlight &&
                retryDelay == InitialDelay && !disposed && pendingTimers == [] &&
                eventSource == Some(old(nextSource)) && openSources == map[old(nextSource) := selected.value]
    {
      BootstrapEffect();
      StreamEffect();
    }

    /**
     * A new `agentId` prop: when it differs from the previous one the
     * effects' cleanups run and then their bodies. Afterwards no source of
     * the previous selection is open, no timer of it is pending and its
     * fetch is cancelled. Deselecting while that fetch is in flight leaves
     * `loading` set: the cancelled run never reaches its `setLoading(false)`.
     */
    method Select(agentId: Option<string>)
      requires Valid() && mounted
      modifies this`selected, this`cancelled, this`disposed, this`openSources, this`eventSource, this`pendingTimers
      modifies this`reconnectTimer, this`history, this`latest, this`fetchGen, this`inFlight, this`loading, this`error
      modifies this`retryDelay, this`nextSource
      ensures Valid() && selected == agentId
      ensures agentId == old(selected) ==> unchanged(this)
      ensures agentId != old(selected) ==>
                (forall s :: s in openSources ==> s >= old(nextSource) && openSources[s] == agentId.value) &&
                pendingTimers == [] && fetchGen >= old(fetchGen)
      ensures agentId != old(selected) && NoSelection(agentId) ==>
                history == [] && latest == None && disposed && cancelled && openSources == map[] &&
                eventSource == None && reconnectTimer == None &&
                unchanged(this`loading, this`error, this`inFlight, this`retryDelay, this`fetchGen, this`nextSource)
      ensures agentId != old(selected) && !NoSelection(agentId) ==>
                unchanged(this`history, this`latest) && loading && error == None &&
                !cancelled && inFlight && fetchGen == old(fetchGen) + 1 &&
                retryDelay == InitialDelay && !disposed && openSources == map[old(nextSource) := agentId.value]
    {
      if agentId != selected {
        Cleanup();
        selected := agentId;
        RunEffects();
      }
    }

    /**
     * Unmounting: every effect's cleanup runs (the unmount-only effect closes
     * the ref's source once more); nothing is left open or pending.
     */
    method Unmount()
      requires Valid() && mounted
      modifies this`cancelled, this`disposed, this`openSources, this`eventSource, this`pendingTimers, this`reconnectTimer
      modifies this`mounted
      ensures Valid() && !mounted
      ensures openSources == map[] && eventSource == None && pendingTimers == [] && cancelled && disposed
    {
      Cleanup();
      mounted := false;
    }

    /** `connect`: a no-op once disposed; otherwise a new source becomes the ref's. */
    method Connect()
      requires Consistent()
      requires openSources == map[] && eventSource == None && pendingTimers == []
      modifies this`eventSource, this`openSources, this`nextSource
      ensures Valid()
      ensures old(disposed) ==> unchanged(this)
      ensures !old(disposed) ==>
                eventSource == Some(old(nextSource)) && openSources == map[old(nextSource) := selected.value] &&
                nextSource == old(nextSource) + 1
    {
      if disposed {
        return;
      }
      eventSource := Some(nextSource);
      openSources := map[nextSource := selected.value];
      nextSource := nextSource + 1;
    }

    /** `scheduleReconnect`: a no-op once disposed; otherwise one timer with the current delay. */
    method ScheduleReconnect()
      requires Consistent()
      requires openSources == map[] && eventSource == None && pendingTimers == []
      modifies this`pendingTimers, this`reconnectTimer, this`nextTimer
      ensures Valid()
      ensures old(disposed) ==> unchanged(this)
      ensures !old(disposed) ==>
                pendingTimers == [Timer(old(nextTimer), retryDelay)] && reconnectTimer == Some(old(nextTimer)) &&
                nextTimer == old(nextTimer) + 1
    {
      if disposed {
        return;
      }
      pendingTimers := [Timer(nextTimer, retryDelay)];
      reconnectTimer := Some(nextTimer);
      nextTimer := nextTimer + 1;
    }

    /** `onopen` of a source: the delay goes back to 1000 ms. */
    method OnOpen(src: nat)
      requires Valid()
      modifies this`retryDelay
      ensures Valid()
      ensures src in openSources ==> retryDelay == InitialDelay
      ensures src !in openSources ==> retryDelay == old(retryDelay)
    {
      if src in openSources {
        retryDelay := InitialDelay;
      }
    }

    /**
     * `onmessage` of a source with the event's data, `None` when
     * `JSON.parse` throws (the handler then stops before touching any state).
     * The payload is folded into the history, the roster and `latest`
     * without looking at its agent id. A source that has been closed
     * delivers nothing.
     */
    method OnMessage(src: nat, data: Option<Record>)
      requires Valid()
      modifies this`history, this`agents, this`latest
      ensures Valid()
      ensures src !in openSources || data.None? ==> unchanged(this)
      ensures src in openSources && data.Some? ==>
                history == History.PushSample(old(history), data.value) &&
                agents == ApplySample(old(agents), data.value) &&
                latest == NextLatest(old(latest), data.value)
      ensures old(latest).Some? ==> latest.Some? && TimeOf(latest) >= TimeOf(old(latest))
      ensures src in openSources && data.Some? ==> data.value.agentId in Ids(VisibleAgents())
    {
      if src in openSources && data.Some? {
        TakeSample(data.value);
      }
    }

    /** The `setHistory`, `setAgents` and `setLatest` calls of `onmessage` with a parsed payload. */
    method TakeSample(payload: Record)
      requires HistoryOk()
      modifies this`history, this`agents, this`latest
      ensures HistoryOk()
      ensures history == History.PushSample(old(history), payload)
      ensures agents == ApplySample(old(agents), payload)
      ensures latest == NextLatest(old(latest), payload)
    {
      PushToHistory(payload);
      UpdateRoster(payload);
    }

    /** The `setHistory` call of `onmessage`. */
    method PushToHistory(payload: Record)
      requires HistoryOk()
      modifies this`history
      ensures HistoryOk()
      ensures history == History.PushSample(old(history), payload)
    {
      History.PushSampleSorted(history, payload);
      history := History.PushSample(history, payload);
    }

    /** The `setAgents` and `setLatest` calls of `onmessage`. */
    method UpdateRoster(payload: Record)
      modifies this`agents, this`latest
      ensures agents == ApplySample(old(agents), payload)
      ensures latest == NextLatest(old(latest), payload)
    {
      agents := ApplySample(agents, payload);
      latest := NextLatest(latest, payload);
    }

    /**
     * `onerror` of a source: the source is closed, the ref forgets it, and a
     * reconnect is scheduled with the current delay.
     */
    method OnError(src: nat)
      requires Valid()
      modifies this`openSources, this`eventSource, this`pendingTimers, this`reconnectTimer, this`nextTimer
      ensures Valid()
      ensures src !in old(openSources) ==> unchanged(this)
      ensures src in old(openSources) ==>
                openSources == map[] && eventSource == None &&
                pendingTimers == [Timer(old(nextTimer), old(retryDelay))] && reconnectTimer == Some(old(nextTimer)) &&
                nextTimer == old(nextTimer) + 1
    {
      if src in openSources {
        assert !disposed;
        openSources := openSources - {src};
        if eventSource == Some(src) {
          eventSource := None;
        }
        ScheduleReconnect();
      }
    }

    /**
     * A reconnect timer fires: the ref forgets it, the delay doubles up to
     * 30000 ms, and `connect` opens a new source. A cleared timer never fires.
     */
    method TimerFires(id: nat)
      requires Valid()
      modifies this`pendingTimers, this`reconnectTimer, this`retryDelay, this`eventSource, this`openSources, this`nextSource
      ensures Valid()
      ensures !(old(pendingTimers) != [] && old(pendingTimers)[0].id == id) ==> unchanged(this)
      ensures old(pendingTimers) != [] && old(pendingTimers)[0].id == id ==>
                pendingTimers == [] && reconnectTimer == None &&
                retryDelay == NextDelay(old(retryDelay)) &&
                eventSource == Some(old(nextSource)) && openSources == map[old(nextSource) := selected.value] &&
                nextSource == old(nextSource) + 1
    {
      if pendingTimers != [] && pendingTimers[0].id == id {
        pendingTimers := [];
        reconnectTimer := None;
        retryDelay := NextDelay(retryDelay);
        Connect();
      }
    }

    /**
     * The history fetch of run `gen` resolves. A cancelled run changes
     * nothing. Otherwise, on success the history becomes the fetched records
     * (`data.records ?? []`) sorted ascending, with no dedup and no cap, and
     * `latest` its last element (absent when there is none); on failure only
     * the error is set. Loading ends either way.
     */
    method BootstrapResolves(gen: nat, resp: Response<Option<seq<Record>>>)
      requires Valid()
      modifies this`history, this`latest, this`error, this`loading, this`inFlight
      ensures Valid()
      ensures !(gen == old(fetchGen) && old(inFlight)) ==> unchanged(this)
      ensures gen == fetchGen && old(inFlight) ==> !inFlight
      ensures gen == fetchGen && old(inFlight) && cancelled ==>
                unchanged(this`history, this`latest, this`error, this`loading)
      ensures gen == fetchGen && old(inFlight) && !cancelled ==>
                !loading && (history, latest, error) == ResolveHistory(old(history), old(latest), old(error), resp)
    {
      if gen == fetchGen && inFlight {
        inFlight := false;
        if !cancelled {
          TakeHistory(resp);
          loading := false;
        }
      }
    }

    /** The `setHistory`, `setLatest` and `setError` calls of a live bootstrap run's fetch. */
    method TakeHistory(resp: Response<Option<seq<Record>>>)
      requires HistoryOk()
      modifies this`history, this`latest, this`error
      ensures HistoryOk()
      ensures (history, latest, error) == ResolveHistory(old(history), old(latest), old(error), resp)
    {
      var resolved := ResolveHistory(history, latest, error, resp);
      history, latest, error := resolved.0, resolved.1, resolved.2;
    }

    /** A `refreshAgents` call resolves (ignored once unmounted). */
    method RefreshResolves(resp: Response<Option<seq<AgentSummary>>>)
      requires Valid()
      modifies this`agents, this`error
      ensures Valid()
      ensures !mounted ==> unchanged(this)
      ensures mounted ==> (agents, error) == RefreshAgents(old(agents), old(error), resp)
    {
      if mounted {
        var refreshed := RefreshAgents(agents, error, resp);
        agents, error := refreshed.0, refreshed.1;
      }
    }
  }

  /** Three consecutive failures schedule 1 s, 2 s and 4 s. */
  method BackoffScenario()
  {
    var hook := new TelemetryHook(Some("agent-a"));
    var s0 := hook.eventSource.value;
    hook.OnError(s0);
    assert hook.pendingTimers[0].delay == 1000;
    hook.TimerFires(hook.pendingTimers[0].id);
    var s1 := hook.eventSource.value;
    hook.OnError(s1);
    assert hook.pendingTimers[0].delay == 2000;
    hook.TimerFires(hook.pendingTimers[0].id);
    var s2 := hook.eventSource.value;
    hook.OnError(s2);
    assert hook.pendingTimers[0].delay == 4000;
  }

  /** After a failure and a successful reopen, the next failure schedules 1 s again. */
  method ReopenScenario()
  {
    var hook := new TelemetryHook(Some("agent-a"));
    var s0 := hook.eventSource.value;
    hook.OnError(s0);
    hook.TimerFires(hook.pendingTimers[0].id);
    assert hook.retryDelay == 2000;
    var s1 := hook.eventSource.value;
    hook.OnOpen(s1);
    hook.OnError(s1);
    assert hook.pendingTimers[0].delay == 1000;
  }

  /**
   * After switching from agent A to agent B, a message still arriving on A's
   * subscription changes nothing, and a fetch of A's run resolving late
   * changes nothing either.
   */
  method TeardownScenario(sample: Record, records: seq<Record>)
  {
    var hook := new TelemetryHook(Some("agent-a"));
    var sourceA := hook.eventSource.value;
    var genA := hook.fetchGen;
    hook.Select(Some("agent-b"));
    var history, agents, latest := hook.history, hook.agents, hook.latest;
    hook.OnMessage(sourceA, Some(sample));
    hook.BootstrapResolves(genA, Response(200, Ok(Some(records))));
    assert hook.history == history && hook.agents == agents && hook.latest == latest;
  }
}
