/** The frame/view bracketing protocol of BeginXrMode, EndXrMode, BeginView and EndView,
    over the two fields it uses: `frameActive` and `viewActiveIndex` (NoView when no view
    is open). The C asserts are the `May...` predicates. */
module Frames {
  import opened OpenXr

  datatype Bracket = Bracket(frameActive: bool, viewActiveIndex: uint32)

  /** The bracket after InitXr: no frame, no view. */
  const Closed := Bracket(false, NoView)

  /** The asserts of BeginXrMode, EndXrMode (checked only once a frame is active),
      BeginView and EndView. */
  predicate MayBeginFrame(b: Bracket) { !b.frameActive }
  predicate MayEndFrame(b: Bracket) { b.frameActive ==> b.viewActiveIndex == NoView }
  predicate MayBeginView(b: Bracket, index: uint32, viewCount: uint32) {
    b.frameActive && b.viewActiveIndex == NoView && index < viewCount
  }
  predicate MayEndView(b: Bracket) { b.frameActive && b.viewActiveIndex != NoView }

  /** The bracket after each call: BeginXrMode opens a frame only on a running session,
      EndXrMode closes an active frame, BeginView opens view `index`, EndView closes it. */
  function AfterBeginFrame(b: Bracket, running: bool): Bracket {
    if running then Bracket(true, NoView) else b
  }
  function AfterEndFrame(b: Bracket): Bracket { b.(frameActive := false) }
  function AfterBeginView(b: Bracket, index: uint32): Bracket { b.(viewActiveIndex := index) }
  function AfterEndView(b: Bracket): Bracket { b.(viewActiveIndex := NoView) }

  /** A call an application makes within one tick. */
  datatype Call = BeginXrMode | EndXrMode | BeginView(index: uint32) | EndView

  /** Runs a sequence of calls on a session that is (or is not) running and has
      `viewCount` views; None when some call's assert fails. */
  function Run(b: Bracket, calls: seq<Call>, running: bool, viewCount: uint32): (r: Option<Bracket>)
    ensures calls == [] ==> r == Some(b)
    ensures r.Some? && r.value.frameActive ==> running || b.frameActive
    decreases |calls|
  {
    if calls == [] then Some(b)
    else
      match calls[0]
      case BeginXrMode =>
        if MayBeginFrame(b) then Run(AfterBeginFrame(b, running), calls[1..], running, viewCount) else None
      case EndXrMode =>
        if MayEndFrame(b) then Run(AfterEndFrame(b), calls[1..], running, viewCount) else None
      case BeginView(i) =>
        if MayBeginView(b, i, viewCount) then Run(AfterBeginView(b, i), calls[1..], running, viewCount) else None
      case EndView =>
        if MayEndView(b) then Run(AfterEndView(b), calls[1..], running, viewCount) else None
  }

  /** BeginView(i); EndView() for i = lo, ..., hi - 1. */
  function ViewCalls(lo: uint32, hi: uint32): seq<Call>
    requires lo <= hi
    decreases hi as int - lo as int
  {
    if lo == hi then [] else [BeginView(lo), EndView] + ViewCalls(lo + 1, hi)
  }

  /** The calls of one application tick: BeginXrMode, a BeginView/EndView pair for each
      view it asked for, and EndXrMode. */
  function Tick(running: bool, viewCount: uint32): seq<Call> {
    [BeginXrMode] + ViewCalls(0, if running then viewCount else 0) + [EndXrMode]
  }

  lemma {:induction false} RunAppend(b: Bracket, a: seq<Call>, c: seq<Call>, running: bool, viewCount: uint32)
    ensures Run(b, a + c, running, viewCount) ==
            match Run(b, a, running, viewCount)
            case None => None
            case Some(b') => Run(b', c, running, viewCount)
    decreases |a|
  {
    if a != [] {
      assert (a + c)[0] == a[0];
      assert (a + c)[1..] == a[1..] + c;
      match a[0]
      case BeginXrMode => RunAppend(AfterBeginFrame(b, running), a[1..], c, running, viewCount);
      case EndXrMode => RunAppend(AfterEndFrame(b), a[1..], c, running, viewCount);
      case BeginView(i) => RunAppend(AfterBeginView(b, i), a[1..], c, running, viewCount);
      case EndView => RunAppend(AfterEndView(b), a[1..], c, running, viewCount);
    } else {
      assert a + c == c;
    }
  }

  /** Inside an active frame, rendering views lo..hi-1 one at a time trips no assert
      and leaves the frame active with no view open. */
  lemma {:induction false} ViewCallsBalanced(lo: uint32, hi: uint32, running: bool, viewCount: uint32)
    requires lo <= hi <= viewCount
    ensures Run(Bracket(true, NoView), ViewCalls(lo, hi), running, viewCount) == Some(Bracket(true, NoView))
    decreases hi as int - lo as int
  {
    if lo < hi {
      var pair := [BeginView(lo), EndView];
      RunAppend(Bracket(true, NoView), pair, ViewCalls(lo + 1, hi), running, viewCount);
      assert pair[1..] == [EndView];
      ViewCallsBalanced(lo + 1, hi, running, viewCount);
    }
  }

  /** The frame loop the examples run each tick (render as many views as BeginXrMode
      returned, then end the frame) never trips an assert, and leaves no frame active. */
  lemma TickBalanced(b: Bracket, running: bool, viewCount: uint32)
    requires !b.frameActive
    ensures Run(b, Tick(running, viewCount), running, viewCount).Some?
    ensures !Run(b, Tick(running, viewCount), running, viewCount).value.frameActive
    ensures running ==> Run(b, Tick(running, viewCount), running, viewCount) == Some(Closed)
  {
    var views := ViewCalls(0, if running then viewCount else 0);
    var started := AfterBeginFrame(b, running);
    assert Tick(running, viewCount) == [BeginXrMode] + (views + [EndXrMode]);
    RunAppend(b, [BeginXrMode], views + [EndXrMode], running, viewCount);
    RunAppend(started, views, [EndXrMode], running, viewCount);
    if running {
      ViewCallsBalanced(0, viewCount, running, viewCount);
    } else {
      assert views == [];
    }
  }

  /** Views are rendered strictly one at a time: once a view is open, no BeginView is
      allowed, and EndXrMode is not allowed either, until EndView. */
  lemma OneViewAtATime(b: Bracket, i: uint32, j: uint32, viewCount: uint32)
    requires MayBeginView(b, i, viewCount)
    ensures !MayBeginView(AfterBeginView(b, i), j, viewCount)
    ensures !MayEndFrame(AfterBeginView(b, i))
    ensures MayEndView(AfterBeginView(b, i))
    ensures AfterEndView(AfterBeginView(b, i)) == b
  {
  }

  /** Calling BeginXrMode twice on a running session without EndXrMode in between trips
      the assert; EndXrMode without an active frame changes nothing. */
  lemma FrameBalance(b: Bracket, viewCount: uint32)
    requires MayBeginFrame(b)
    ensures Run(b, [BeginXrMode, BeginXrMode], true, viewCount) == None
    ensures Run(b, [EndXrMode], true, viewCount) == Some(b)
  {
  }
}
