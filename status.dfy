/** The public session status: GetXrState and IsXrFocused as functions of the
    instance handle (live or null) and the last recorded XrSessionState. */
module Status {
  import opened OpenXr

  /** rlXrState, the coarse status the library reports to applications. */
  datatype RlXrState =
    | StateUnknown
    | StateIdle
    | StateSynchronized
    | StateVisible
    | StateFocused

  /** GetXrState: UNKNOWN without an instance, otherwise the runtime state collapsed
      onto five values. */
  function PublicState(connected: bool, s: SessionState): (r: RlXrState)
    ensures !connected ==> r == StateUnknown
    ensures r == StateUnknown ==> !connected || s == Unknown || EndsSession(s)
  {
    if !connected then StateUnknown
    else match s
      case Idle | Ready | Stopping => StateIdle
      case Synchronized => StateSynchronized
      case Visible => StateVisible
      case Focused => StateFocused
      case _ => StateUnknown
  }

  /** IsXrFocused. */
  function IsFocused(connected: bool, s: SessionState): (r: bool)
    ensures r <==> PublicState(connected, s) == StateFocused
  {
    if !connected then false else s == Focused
  }

  /** The collapse, state by state: three runtime states read as IDLE, three are reported
      one-to-one, and the remaining three read as UNKNOWN. */
  lemma PublicStateTable(s: SessionState)
    ensures PublicState(true, s) == StateIdle <==> s in {Idle, Ready, Stopping}
    ensures PublicState(true, s) == StateSynchronized <==> s == Synchronized
    ensures PublicState(true, s) == StateVisible <==> s == Visible
    ensures PublicState(true, s) == StateFocused <==> s == Focused
    ensures PublicState(true, s) == StateUnknown <==> s in {Unknown, LossPending, Exiting}
  {
  }
}
