/** The session lifecycle as UpdateXr drives it: the event queue is drained in order,
    session-state events record the new runtime state and start or stop the session,
    and a fatal event closes the library and ends the drain. */
module Lifecycle {
  import opened OpenXr
  import opened Status

  /** The fields of the session record the event loop reads and writes: whether
      `instance` is a live handle, `sessionRunning` and `state`. */
  datatype Session = Session(connected: bool, running: bool, state: SessionState)

  /** What every session reachable through InitXr, UpdateXr and CloseXr satisfies:
      a running session has a live instance, and the recorded state is never one
      that ends the session (those close the library before being recorded). */
  predicate Invariant(s: Session) {
    (s.running ==> s.connected) && !EndsSession(s.state)
  }

  /** The session right after a successful InitXr. */
  const Initialized := Session(true, false, Unknown)

  /** CloseXr exactly as the library has it: a no-op without an instance, otherwise the
      resources are released and only the instance handle is cleared. */
  function CloseAsWritten(s: Session): (r: Session)
    ensures !r.connected
    ensures r.running == s.running && r.state == s.state
  {
    if !s.connected then s else s.(connected := false)
  }

  /** CloseXr as this model has it: closing also marks the session as not running, so
      that BeginXrMode skips frames on a closed session. */
  function Close(s: Session): (r: Session)
    ensures !r.connected && r.state == s.state
    ensures s.connected ==> !r.running
    ensures Invariant(s) ==> Invariant(r)
  {
    if !s.connected then s else Session(false, false, s.state)
  }

  /** What BeginXrMode returns for a session in state `s`: nothing to render until the
      session runs, otherwise every view. */
  function RenderableViews(s: Session, viewCount: uint32): (n: uint32)
    ensures n == 0 || n == viewCount
    ensures n == viewCount <==> s.running || viewCount == 0
  {
    if s.running then viewCount else 0
  }

  /** One iteration of UpdateXr's loop body for an event the poll returned, with the
      fatal arms closing through the corrected CloseXr. */
  function Step(s: Session, e: Event): (r: Session)
    ensures Fatal(e) ==> r == Close(s)
    ensures !Fatal(e) ==> r.connected == s.connected
  {
    match e
    case InstanceLossPending => Close(s)
    case SessionStateChanged(ns) =>
      if EndsSession(ns) then Close(s)
      else
        var running := if ns == Ready then true else if ns == Stopping then false else s.running;
        Session(s.connected, running, ns)
    case _ => s
  }

  /** UpdateXr with the corrected CloseXr (Close; see CloseAsWritten for the library's):
      poll and handle events until the poll stops succeeding. The poll fails once the
      queue is empty, and also on a null instance handle, so nothing after a fatal event
      is handled. */
  function Drain(s: Session, events: seq<Event>): (r: Session)
    ensures !s.connected || events == [] ==> r == s
    ensures r.connected ==> s.connected
    decreases |events|
  {
    if !s.connected || events == [] then s
    else Drain(Step(s, events[0]), events[1..])
  }

  /** The state recorded by the last session-state event in `events`, if any. */
  function LastState(initial: SessionState, events: seq<Event>): SessionState
    decreases |events|
  {
    if events == [] then initial
    else
      var e := events[|events| - 1];
      if e.SessionStateChanged? then e.newState else LastState(initial, events[..|events| - 1])
  }

  /** Whether the last READY or STOPPING event in `events` (if any) left the session running. */
  function LastRunning(initial: bool, events: seq<Event>): bool
    decreases |events|
  {
    if events == [] then initial
    else
      var e := events[|events| - 1];
      if e == SessionStateChanged(Ready) then true
      else if e == SessionStateChanged(Stopping) then false
      else LastRunning(initial, events[..|events| - 1])
  }

  /** Draining a queue in two UpdateXr calls has the same effect as draining it in one. */
  lemma {:induction false} DrainAppend(s: Session, a: seq<Event>, b: seq<Event>)
    ensures Drain(s, a + b) == Drain(Drain(s, a), b)
    decreases |a|
  {
    if !s.connected {
    } else if a == [] {
      assert a + b == b;
    } else {
      assert (a + b)[0] == a[0];
      assert (a + b)[1..] == a[1..] + b;
      DrainAppend(Step(s, a[0]), a[1..], b);
    }
  }

  /** UpdateXr with the corrected CloseXr keeps the lifecycle invariant. With CloseXr as
      written it does not: LossWhileRunningKeepsRendering. */
  lemma {:induction false} DrainKeepsInvariant(s: Session, events: seq<Event>)
    requires Invariant(s)
    ensures Invariant(Drain(s, events))
    decreases |events|
  {
    if s.connected && events != [] {
      DrainKeepsInvariant(Step(s, events[0]), events[1..]);
    }
  }

  /** Without a fatal event the session stays connected. */
  lemma {:induction false} DrainWithoutFatalStaysConnected(s: Session, events: seq<Event>)
    requires s.connected
    requires forall j :: 0 <= j < |events| ==> !Fatal(events[j])
    ensures Drain(s, events).connected
    decreases |events|
  {
    if events != [] {
      DrainWithoutFatalStaysConnected(Step(s, events[0]), events[1..]);
    }
  }

  /** Without a fatal event, UpdateXr leaves the session connected, records the state of
      the last session-state event, and leaves it running exactly when the last READY or
      STOPPING event was a READY (the outcome of xrBeginSession is not consulted). */
  lemma {:induction false} DrainWithoutFatal(s: Session, events: seq<Event>)
    requires s.connected
    requires forall j :: 0 <= j < |events| ==> !Fatal(events[j])
    ensures Drain(s, events) == Session(true, LastRunning(s.running, events), LastState(s.state, events))
    decreases |events|
  {
    if events != [] {
      var n := |events| - 1;
      var init, last := events[..n], events[n];
      assert events == init + [last];
      DrainAppend(s, init, [last]);
      DrainWithoutFatal(s, init);
      assert Drain(s, init).connected;
    }
  }

  /** The first fatal event closes the library (with the corrected CloseXr): the session is disconnected, and every
      event after it is left unprocessed (the result does not depend on them). */
  lemma {:induction false} DrainStopsAtFatal(s: Session, events: seq<Event>, k: nat)
    requires s.connected
    requires k < |events| && Fatal(events[k])
    requires forall j :: 0 <= j < k ==> !Fatal(events[j])
    ensures Drain(s, events) == Close(Drain(s, events[..k]))
    ensures !Drain(s, events).connected
    ensures PublicState(Drain(s, events).connected, Drain(s, events).state) == StateUnknown
    ensures !IsFocused(Drain(s, events).connected, Drain(s, events).state)
  {
    var t := Drain(s, events[..k]);
    assert events == events[..k] + events[k..];
    DrainAppend(s, events[..k], events[k..]);
    DrainWithoutFatalStaysConnected(s, events[..k]);
    assert events[k..][0] == events[k];
    assert !Close(t).connected;
  }

  /** The finding about CloseXr: a session that is running when instance or session loss
      is reported is closed as written with `sessionRunning` still set, so BeginXrMode
      goes on returning the view count for a session whose resources are released. */
  lemma LossWhileRunningKeepsRendering()
    ensures var running := Drain(Initialized, [SessionStateChanged(Ready), SessionStateChanged(Synchronized),
                                              SessionStateChanged(Visible), SessionStateChanged(Focused)]);
            running == Session(true, true, Focused)
            && !CloseAsWritten(running).connected
            && RenderableViews(CloseAsWritten(running), 2) == 2
  {
  }

  /** With the corrected CloseXr, every session reached by draining events from a valid
      one renders nothing once it is disconnected. */
  lemma {:induction false} DisconnectedRendersNothing(s: Session, events: seq<Event>, viewCount: uint32)
    requires Invariant(s)
    requires !Drain(s, events).connected
    ensures RenderableViews(Drain(s, events), viewCount) == 0
  {
    DrainKeepsInvariant(s, events);
  }
}
