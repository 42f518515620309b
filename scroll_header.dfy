/**
 * Scroll-aware page header (public/scripts/scroll-header.js).
 * window.scrollY is an integer number of pixels, the mobile-nav test isNavOpen() is a
 * parameter, and requestAnimationFrame(updateHeader) is a counter of updates the host
 * still has to run.
 */
module ScrollHeader {

  const ScrollThreshold := 60
  const VelocityThreshold := 5
  const CompactThreshold := 100
  const TopZone := 10

  const IsHidden := "is-hidden"
  const IsCompact := "is-compact"
  const IsAtTop := "is-at-top"

  /** The closure variables of the header script and the header's class list. */
  datatype HeaderState = HeaderState(
    lastScrollY: int,
    ticking: bool,
    isHidden: bool,
    isCompact: bool,
    classes: set<string>)

  function Abs(x: int): nat
  {
    if x < 0 then -x else x
  }

  /** The class list mirrors the two flags. */
  predicate ClassesMirrorFlags(s: HeaderState)
  {
    (IsHidden in s.classes <==> s.isHidden) && (IsCompact in s.classes <==> s.isCompact)
  }

  /** The classes the header script never touches are the same in both states. */
  predicate OtherClassesKept(s: HeaderState, t: HeaderState)
  {
    s.classes - {IsHidden, IsCompact, IsAtTop} == t.classes - {IsHidden, IsCompact, IsAtTop}
  }

  /** updateHeader, read at the current scroll position. */
  function Update(s: HeaderState, scrollY: int): (r: HeaderState)
    ensures r.isCompact == (scrollY > CompactThreshold)
    ensures !r.ticking
    ensures scrollY < TopZone ==>
      && IsAtTop in r.classes && IsHidden !in r.classes && IsCompact !in r.classes
      && !r.isHidden && r.lastScrollY == scrollY
    ensures scrollY >= TopZone ==> IsAtTop !in r.classes
    ensures scrollY >= TopZone && Abs(scrollY - s.lastScrollY) < VelocityThreshold ==>
      r.isHidden == s.isHidden && r.lastScrollY == s.lastScrollY
    ensures scrollY >= TopZone && Abs(scrollY - s.lastScrollY) >= VelocityThreshold ==>
      r.lastScrollY == scrollY
    ensures scrollY > ScrollThreshold && scrollY - s.lastScrollY >= VelocityThreshold ==> r.isHidden
    ensures scrollY > ScrollThreshold && scrollY - s.lastScrollY <= -VelocityThreshold ==> !r.isHidden
    ensures TopZone <= scrollY <= ScrollThreshold ==> r.isHidden == s.isHidden
    ensures ClassesMirrorFlags(s) ==> ClassesMirrorFlags(r)
    ensures OtherClassesKept(s, r)
  {
    var delta := scrollY - s.lastScrollY;
    if scrollY < TopZone then
      s.(classes := s.classes - {IsHidden, IsCompact} + {IsAtTop},
         isHidden := false, isCompact := false, lastScrollY := scrollY, ticking := false)
    else
      var c1 := s.classes - {IsAtTop};
      var (c2, compact) :=
        if scrollY > CompactThreshold && !s.isCompact then (c1 + {IsCompact}, true)
        else if scrollY <= CompactThreshold && s.isCompact then (c1 - {IsCompact}, false)
        else (c1, s.isCompact);
      if Abs(delta) < VelocityThreshold then
        s.(classes := c2, isCompact := compact, ticking := false)
      else
        var (c3, hidden) :=
          if scrollY > ScrollThreshold && delta > 0 && !s.isHidden then (c2 + {IsHidden}, true)
          else if scrollY > ScrollThreshold && delta < 0 && s.isHidden then (c2 - {IsHidden}, false)
          else (c2, s.isHidden);
        s.(classes := c3, isCompact := compact, isHidden := hidden,
           lastScrollY := scrollY, ticking := false)
  }

  /** The reduced-motion listener as written: it strips the two classes but keeps the
      flags, and on leaving reduced motion runs an update. */
  function ReducedMotionChangeAsWritten(s: HeaderState, matches: bool, scrollY: int): (r: HeaderState)
    ensures matches ==> IsHidden !in r.classes && IsCompact !in r.classes
    ensures matches ==> r.isHidden == s.isHidden && r.isCompact == s.isCompact
    ensures !matches ==> r == Update(s, scrollY)
  {
    if matches then s.(classes := s.classes - {IsHidden, IsCompact})
    else Update(s, scrollY)
  }

  /** Small moves add up against the old baseline: two sub-threshold steps from a settled
      position leave lastScrollY where it was. */
  lemma SmallMovesKeepBaseline(s: HeaderState, y1: int, y2: int)
    requires TopZone <= y1 && TopZone <= y2
    requires Abs(y1 - s.lastScrollY) < VelocityThreshold && Abs(y2 - s.lastScrollY) < VelocityThreshold
    ensures Update(Update(s, y1), y2).lastScrollY == s.lastScrollY
    ensures Update(Update(s, y1), y2).isHidden == s.isHidden
  {
  }

  /** As written, leaving reduced motion deep in the page can leave a compact header
      without its is-compact class. */
  lemma StaleCompactAfterReducedMotion()
    ensures
      var s := HeaderState(500, false, false, true, {IsCompact});
      var off := ReducedMotionChangeAsWritten(ReducedMotionChangeAsWritten(s, true, 500), false, 500);
      ClassesMirrorFlags(s) && off.isCompact && IsCompact !in off.classes
  {
  }

  /** The reduced-motion listener with the flags reset together with the classes. */
  function ReducedMotionChange(s: HeaderState, matches: bool, scrollY: int): (r: HeaderState)
    ensures ClassesMirrorFlags(s) ==> ClassesMirrorFlags(r)
    ensures matches ==> IsHidden !in r.classes && IsCompact !in r.classes && !r.isHidden && !r.isCompact
    ensures !matches ==> r.isCompact == (scrollY > CompactThreshold)
    ensures !matches && ClassesMirrorFlags(s) ==> (IsCompact in r.classes <==> scrollY > CompactThreshold)
  {
    if matches then s.(classes := s.classes - {IsHidden, IsCompact}, isHidden := false, isCompact := false)
    else Update(s, scrollY)
  }

  /** Leaving reduced motion after entering it always ends with the class list mirroring
      the scroll position. */
  lemma ReducedMotionRoundTrip(s: HeaderState, y1: int, y2: int)
    requires ClassesMirrorFlags(s)
    ensures var r := ReducedMotionChange(ReducedMotionChange(s, true, y1), false, y2);
      ClassesMirrorFlags(r) && (IsCompact in r.classes <==> y2 > CompactThreshold)
  {
  }

  /** The header controller: closure state, class list and pending host frames. */
  class Header {
    var lastScrollY: int
    var ticking: bool
    var isHidden: bool
    var isCompact: bool
    var classes: set<string>
    /** updateHeader calls requested from the host and not yet run */
    var pendingFrames: nat

    function State(): HeaderState
      reads this
    {
      HeaderState(lastScrollY, ticking, isHidden, isCompact, classes)
    }

    ghost predicate Valid()
      reads this
    {
      ClassesMirrorFlags(State())
    }

    /** Scroll updates are gated: at most one is pending, and exactly while ticking. */
    ghost predicate Gated()
      reads this
    {
      pendingFrames <= 1 && (ticking <==> pendingFrames == 1)
    }

    /** Script start-up: the header markup starts neither hidden nor compact; without
        reduced motion one update runs at once. */
    constructor (initialClasses: set<string>, reducedMotion: bool, scrollY: int)
      requires IsHidden !in initialClasses && IsCompact !in initialClasses
      ensures Valid() && Gated()
      ensures reducedMotion ==> State() == HeaderState(0, false, false, false, initialClasses)
      ensures !reducedMotion ==> State() == Update(HeaderState(0, false, false, false, initialClasses), scrollY)
    {
      lastScrollY := 0;
      ticking := false;
      isHidden := false;
      isCompact := false;
      classes := initialClasses;
      pendingFrames := 0;
      new;
      if !reducedMotion {
        UpdateHeader(scrollY);
      }
    }

    method UpdateHeader(scrollY: int)
      requires Valid()
      modifies this
      ensures Valid()
      ensures State() == Update(old(State()), scrollY)
      ensures pendingFrames == old(pendingFrames)
    {
      var delta := scrollY - lastScrollY;
      if scrollY < TopZone {
        classes := classes - {IsHidden, IsCompact};
        classes := classes + {IsAtTop};
        isHidden := false;
        isCompact := false;
        lastScrollY := scrollY;
        ticking := false;
        return;
      }

      classes := classes - {IsAtTop};

      if scrollY > CompactThreshold && !isCompact {
        classes := classes + {IsCompact};
        isCompact := true;
      } else if scrollY <= CompactThreshold && isCompact {
        classes := classes - {IsCompact};
        isCompact := false;
      }

      if Abs(delta) < VelocityThreshold {
        ticking := false;
        return;
      }

      if scrollY > ScrollThreshold {
        if delta > 0 && !isHidden {
          classes := classes + {IsHidden};
          isHidden := true;
        } else if delta < 0 && isHidden {
          classes := classes - {IsHidden};
          isHidden := false;
        }
      }

      lastScrollY := scrollY;
      ticking := false;
    }

    /** The scroll listener: ignored while the mobile menu is open, otherwise requests
        one update unless one is already requested. */
    method OnScroll(navOpen: bool)
      modifies this
      ensures navOpen || old(ticking) ==> State() == old(State()) && pendingFrames == old(pendingFrames)
      ensures !navOpen && !old(ticking) ==>
        State() == old(State()).(ticking := true) && pendingFrames == old(pendingFrames) + 1
      ensures old(Gated()) ==> Gated()
      ensures old(Valid()) ==> Valid()
    {
      if navOpen {
        return;
      }
      if !ticking {
        pendingFrames := pendingFrames + 1;
        ticking := true;
      }
    }

    /** The host runs one requested update. */
    method RunScheduledUpdate(scrollY: int)
      requires Valid() && pendingFrames > 0
      modifies this
      ensures Valid()
      ensures State() == Update(old(State()), scrollY)
      ensures pendingFrames == old(pendingFrames) - 1
      ensures old(Gated()) ==> Gated() && pendingFrames == 0
    {
      pendingFrames := pendingFrames - 1;
      UpdateHeader(scrollY);
    }

    /** The reduced-motion media-query listener (with the flags reset; see
        ReducedMotionChangeAsWritten for the code as written). */
    method OnReducedMotionChange(matches: bool, scrollY: int)
      requires Valid()
      modifies this
      ensures Valid()
      ensures State() == ReducedMotionChange(old(State()), matches, scrollY)
      ensures pendingFrames == old(pendingFrames)
    {
      if matches {
        classes := classes - {IsHidden, IsCompact};
        isHidden := false;
        isCompact := false;
      } else {
        UpdateHeader(scrollY);
      }
    }
  }

  /** Scroll down past the thresholds, then back up: the header hides, compacts and
      shows again. */
  method ScrollScenario()
  {
    var h := new Header({"header"}, false, 0);
    assert IsAtTop in h.classes && !h.isHidden;
    h.OnScroll(false);
    h.OnScroll(false);
    assert h.pendingFrames == 1;
    h.RunScheduledUpdate(300);
    assert h.isHidden && h.isCompact && IsHidden in h.classes && IsCompact in h.classes;
    h.OnScroll(true);
    assert h.pendingFrames == 0;
    h.OnScroll(false);
    h.RunScheduledUpdate(298);
    assert h.isHidden && h.lastScrollY == 300;
    h.OnScroll(false);
    h.RunScheduledUpdate(200);
    assert !h.isHidden && h.isCompact && "header" in h.classes;
  }
}
