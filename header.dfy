/** The auto-hiding header. Each throttled scroll sample compares the offset
    with the last one (up shows the nav, down or no movement hides it); each
    raw scroll event marks the page as scrolling and (re)arms one idle timer
    whose firing shows the nav again. Throttling and the timer delay are
    abstract events here, not clocks. */
module AutoHideHeader {
  import opened JsValues

  /** The component's state together with the part of the browser's timer
      table it uses. `scrollTimeout` is the React state slot (it keeps the id
      of a timer that has already fired); `pendingTimers` are the idle timers
      still scheduled; `nextTimerId` is the id `setTimeout` returns next
      (always positive, so `if (scrollTimeout)` tests presence). */
  datatype NavState = NavState(
    show: bool,
    lastScrollY: int,
    isScrolling: bool,
    scrollTimeout: Option<nat>,
    pendingTimers: set<nat>,
    nextTimerId: nat,
    mounted: bool)

  datatype Event =
    | ThrottledSample(y: int)   // `controlNavbar` runs with `window.scrollY == y`
    | RawScroll                 // `handleScroll` runs
    | TimerFire(id: nat)        // the browser fires timer `id`
    | Teardown                  // the component unmounts

  const Initial: NavState := NavState(true, 0, false, None, {}, 1, true)

  /** The idle timers still scheduled are at most the one the state slot
      names, and none once the component is gone. */
  predicate Inv(s: NavState)
  {
    && s.pendingTimers <= (if s.scrollTimeout.Some? then {s.scrollTimeout.value} else {})
    && (!s.mounted ==> s.pendingTimers == {})
  }

  /** The timers still to fire, removing `scrollTimeout` when it is set. */
  function ClearSlot(s: NavState): (r: set<nat>)
    ensures s.scrollTimeout.None? ==> r == s.pendingTimers
    ensures s.scrollTimeout.Some? ==> r == s.pendingTimers - {s.scrollTimeout.value}
    ensures Inv(s) ==> r == {}
  {
    if s.scrollTimeout.Some? then s.pendingTimers - {s.scrollTimeout.value} else s.pendingTimers
  }

  function OnSample(s: NavState, y: int): (t: NavState)
    ensures s.mounted ==> (t.show <==> y < s.lastScrollY) && t.lastScrollY == y
    ensures t.isScrolling == s.isScrolling && t.pendingTimers == s.pendingTimers
    ensures t.scrollTimeout == s.scrollTimeout && t.mounted == s.mounted
    ensures t.nextTimerId == s.nextTimerId
    ensures !s.mounted ==> t == s
  {
    if s.mounted then s.(show := y < s.lastScrollY, lastScrollY := y) else s
  }

  function OnRawScroll(s: NavState): (t: NavState)
    ensures s.mounted ==> t.isScrolling && t.scrollTimeout == Some(s.nextTimerId)
    ensures s.mounted ==> t.pendingTimers == ClearSlot(s) + {s.nextTimerId}
    ensures s.mounted ==> t.nextTimerId == s.nextTimerId + 1
    ensures s.mounted && Inv(s) ==> t.pendingTimers == {s.nextTimerId}
    ensures t.show == s.show && t.lastScrollY == s.lastScrollY && t.mounted == s.mounted
    ensures !s.mounted ==> t == s
  {
    if s.mounted then
      s.(isScrolling := true,
         pendingTimers := ClearSlot(s) + {s.nextTimerId},
         scrollTimeout := Some(s.nextTimerId),
         nextTimerId := s.nextTimerId + 1)
    else s
  }

  function OnTimerFire(s: NavState, id: nat): (t: NavState)
    ensures id in s.pendingTimers ==> t.show && !t.isScrolling && id !in t.pendingTimers
    ensures t.lastScrollY == s.lastScrollY && t.scrollTimeout == s.scrollTimeout
    ensures t.pendingTimers == s.pendingTimers - {id}
    ensures t.nextTimerId == s.nextTimerId && t.mounted == s.mounted
    ensures id !in s.pendingTimers ==> t == s
  {
    if id in s.pendingTimers then
      s.(show := true, isScrolling := false, pendingTimers := s.pendingTimers - {id})
    else s
  }

  function OnTeardown(s: NavState): (t: NavState)
    ensures !t.mounted
    ensures Inv(s) ==> t.pendingTimers == {}
    ensures t.pendingTimers == ClearSlot(s)
    ensures t.show == s.show && t.lastScrollY == s.lastScrollY && t.isScrolling == s.isScrolling
    ensures t.scrollTimeout == s.scrollTimeout && t.nextTimerId == s.nextTimerId
  {
    s.(pendingTimers := ClearSlot(s), mounted := false)
  }

  /** The listener, timer or cleanup that an event runs. */
  function Step(s: NavState, e: Event): (t: NavState)
    ensures Inv(s) ==> Inv(t)
    ensures e.Teardown? ==> !t.mounted
    ensures !e.Teardown? ==> t.mounted == s.mounted
  {
    match e
    case ThrottledSample(y) => OnSample(s, y)
    case RawScroll => OnRawScroll(s)
    case TimerFire(id) => OnTimerFire(s, id)
    case Teardown => OnTeardown(s)
  }

  /** The state after the events `es`, in order. */
  function Run(s: NavState, es: seq<Event>): (t: NavState)
    ensures Inv(s) ==> Inv(t)
    ensures !s.mounted ==> !t.mounted
    decreases |es|
  {
    if es == [] then s else Run(Step(s, es[0]), es[1..])
  }

  /** `transform` of the `Nav` element. */
  function NavTransform(show: bool): (t: string)
    ensures t == "translateY(0)" <==> show
    ensures t == "translateY(-100%)" <==> !show
  {
    if show then "translateY(0)" else "translateY(-100%)"
  }

  lemma StepPreservesInv(s: NavState, e: Event)
    requires Inv(s)
    ensures Inv(Step(s, e))
  {
  }

  /** Whatever happens, at most one idle timer is ever pending. */
  lemma {:induction false} RunPreservesInv(s: NavState, es: seq<Event>)
    requires Inv(s)
    ensures Inv(Run(s, es))
    ensures |Run(s, es).pendingTimers| <= 1
    decreases |es|
  {
    if es == [] {
      AtMostOnePending(s);
    } else {
      StepPreservesInv(s, es[0]);
      RunPreservesInv(Step(s, es[0]), es[1..]);
    }
  }

  lemma AtMostOnePending(s: NavState)
    requires Inv(s)
    ensures |s.pendingTimers| <= 1
  {
    if s.scrollTimeout.Some? {
      var only := {s.scrollTimeout.value};
      assert |only| == 1;
      SubsetSize(s.pendingTimers, only);
    }
  }

  lemma SubsetSize(a: set<nat>, b: set<nat>)
    requires a <= b
    ensures |a| <= |b|
  {
    assert b == a + (b - a);
  }

  lemma {:induction false} RunAppend(s: NavState, es: seq<Event>, fs: seq<Event>)
    ensures Run(s, es + fs) == Run(Run(s, es), fs)
    decreases |es|
  {
    if es != [] {
      assert (es + fs)[0] == es[0];
      assert (es + fs)[1..] == es[1..] + fs;
      RunAppend(Step(s, es[0]), es[1..], fs);
    } else {
      assert es + fs == fs;
    }
  }

  /** Once unmounted, no event brings a timer back or changes the state. */
  lemma {:induction false} UnmountedIsInert(s: NavState, es: seq<Event>)
    requires Inv(s) && !s.mounted
    ensures Run(s, es).pendingTimers == {}
    ensures !Run(s, es).mounted
    ensures Run(s, es).show == s.show && Run(s, es).lastScrollY == s.lastScrollY
    decreases |es|
  {
    if es != [] {
      StepPreservesInv(s, es[0]);
      UnmountedIsInert(Step(s, es[0]), es[1..]);
    }
  }

  /** Teardown clears the pending idle timer: after it, whatever events
      follow, no timer is pending. */
  lemma NoTimerSurvivesTeardown(s: NavState, before: seq<Event>, after: seq<Event>)
    requires Inv(s)
    ensures Run(s, before + [Teardown] + after).pendingTimers == {}
  {
    RunAppend(s, before + [Teardown], after);
    RunAppend(s, before, [Teardown]);
    RunPreservesInv(s, before);
    var down := Run(s, before + [Teardown]);
    assert down == OnTeardown(Run(s, before));
    UnmountedIsInert(down, after);
  }

  /** The offset of the last sample, or `d` when there is none. */
  function LastSample(es: seq<Event>, d: int): int
    decreases |es|
  {
    if es == [] then d
    else if es[|es| - 1].ThrottledSample? then es[|es| - 1].y
    else LastSample(es[..|es| - 1], d)
  }

  /** While mounted, `lastScrollY` is always the offset of the latest sample. */
  lemma {:induction false} LastScrollYIsLastSample(s: NavState, es: seq<Event>)
    requires s.mounted
    requires forall k :: 0 <= k < |es| ==> !es[k].Teardown?
    ensures Run(s, es).lastScrollY == LastSample(es, s.lastScrollY)
    ensures Run(s, es).mounted
    decreases |es|
  {
    if es != [] {
      var init, last := es[..|es| - 1], es[|es| - 1];
      assert es == init + [last];
      LastScrollYIsLastSample(s, init);
      RunAppend(s, init, [last]);
    }
  }

  /** A scroll-up sample shows the nav, a scroll-down or unchanged one hides
      it, and an idle timer shows it whichever way the page moved last. */
  lemma DirectionScenario()
    ensures Run(Initial, [ThrottledSample(0)]).show == false
    ensures Run(Initial, [ThrottledSample(300)]).show == false
    ensures Run(Initial, [ThrottledSample(300), ThrottledSample(120)]).show == true
    ensures Run(Initial, [RawScroll, ThrottledSample(300), TimerFire(1)]).show == true
    ensures Run(Initial, [RawScroll, RawScroll, TimerFire(1)]).pendingTimers == {2}
  {
  }

  /** The header component. Its methods are the event handlers; each one
      changes the fields exactly as the matching step of `NavState`. */
  class Header {
    var show: bool
    var lastScrollY: int
    var isScrolling: bool
    var scrollTimeout: Option<nat>
    var pendingTimers: set<nat>
    var nextTimerId: nat
    var mounted: bool

    function State(): NavState
      reads this
    {
      NavState(show, lastScrollY, isScrolling, scrollTimeout, pendingTimers, nextTimerId, mounted)
    }

    ghost predicate Valid()
      reads this
    {
      Inv(State())
    }

    constructor ()
      ensures State() == Initial && Valid()
    {
      show, lastScrollY, isScrolling := true, 0, false;
      scrollTimeout, pendingTimers, nextTimerId := None, {}, 1;
      mounted := true;
    }

    /** `controlNavbar` */
    method ThrottledSample(y: int)
      requires Valid()
      modifies this
      ensures Valid() && State() == OnSample(old(State()), y)
    {
      if mounted {
        if y < lastScrollY {
          show := true;
        } else {
          show := false;
        }
        lastScrollY := y;
      }
    }

    /** `handleScroll`: clear the previous idle timer and arm a new one. */
    method RawScroll()
      requires Valid()
      modifies this
      ensures Valid() && State() == OnRawScroll(old(State()))
      ensures mounted ==> pendingTimers == {old(nextTimerId)}
    {
      if mounted {
        isScrolling := true;
        if scrollTimeout.Some? {
          pendingTimers := pendingTimers - {scrollTimeout.value};
        }
        var timeout := nextTimerId;
        nextTimerId := nextTimerId + 1;
        pendingTimers := pendingTimers + {timeout};
        scrollTimeout := Some(timeout);
      }
    }

    /** The idle timer's callback. A timer that was cleared never fires. */
    method TimerFire(id: nat)
      requires Valid()
      modifies this
      ensures Valid() && State() == OnTimerFire(old(State()), id)
    {
      if id in pendingTimers {
        pendingTimers := pendingTimers - {id};
        show := true;
        isScrolling := false;
      }
    }

    /** The effects' cleanup on unmount. */
    method Teardown()
      requires Valid()
      modifies this
      ensures Valid() && State() == OnTeardown(old(State()))
      ensures pendingTimers == {}
    {
      mounted := false;
      if scrollTimeout.Some? {
        pendingTimers := pendingTimers - {scrollTimeout.value};
      }
    }

    /** The `transform` the nav is rendered with. */
    function Transform(): (t: string)
      reads this
      ensures t == "translateY(0)" <==> show
      ensures t == "translateY(-100%)" <==> !show
    {
      NavTransform(show)
    }
  }
}
