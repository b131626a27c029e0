/**
 * The invariants of the dashboard hook's stream connector and of its
 * effect runs (web/dashboard/src/hooks/useTelemetryData.ts), stated over
 * plain values so that the hook object can check them field by field.
 */
module HookState {
  import opened Wrappers
  import opened Backoff

  /** A `window.setTimeout` that has neither fired nor been cleared. */
  datatype Timer = Timer(id: nat, delay: int)

  /** `!agentId`: no agent selected (null or the empty id). */
  predicate NoSelection(agentId: Option<string>) {
    agentId.None? || |agentId.value| == 0
  }

  /**
   * The connector's invariant: at most one source is open and it is the
   * ref's; at most one timer is pending and it is the ref's; a timer is
   * pending only while no source is open; a disposed run has neither; open
   * sources subscribe to the selected agent; the delay stays between the
   * 1 s floor and the 30 s cap.
   */
  ghost predicate StreamInvariant(openSources: map<nat, string>, eventSource: Option<nat>, nextSource: nat,
                                  pendingTimers: seq<Timer>, reconnectTimer: Option<nat>, retryDelay: int,
                                  disposed: bool, selected: Option<string>)
  {
    && (forall s :: s in openSources ==> eventSource == Some(s) && s < nextSource)
    && (eventSource.Some? ==> eventSource.value in openSources)
    && |pendingTimers| <= 1
    && reconnectTimer == (if |pendingTimers| == 0 then None else Some(pendingTimers[0].id))
    && (|pendingTimers| == 1 ==> |openSources| == 0 && pendingTimers[0].delay == retryDelay)
    && (disposed ==> |openSources| == 0 && |pendingTimers| == 0)
    && (!disposed ==> !NoSelection(selected))
    && (forall s :: s in openSources ==> !NoSelection(selected) && openSources[s] == selected.value)
    && InitialDelay <= retryDelay <= MaxDelay
  }

  /** A live bootstrap run has a selection; after unmounting nothing is live. */
  ghost predicate LifecycleInvariant(cancelled: bool, selected: Option<string>, mounted: bool, disposed: bool) {
    && (!cancelled ==> !NoSelection(selected))
    && (!mounted ==> disposed && cancelled)
  }

}
