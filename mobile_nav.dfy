/**
 * Mobile navigation overlay (public/scripts/mobile-nav.js).
 * The DOM is reduced to what the script reads and writes: the toggle's aria-expanded,
 * the wrapper's class list and aria-hidden, the body's overflow style, and which
 * element has focus.
 */
module MobileNav {

  const IsOpenClass := "is-open"

  datatype NavDom = NavDom(
    ariaExpanded: string,
    wrapperClasses: set<string>,
    ariaHidden: string,
    bodyOverflow: string)

  datatype Focus = Elsewhere | ToggleButton | CloseButton

  datatype PressKind = Click | TouchEnd

  /** The open state as handleToggle reads it. */
  predicate IsOpen(d: NavDom)
  {
    d.ariaExpanded == "true"
  }

  /** The four places that record the open state agree. */
  predicate Mirrored(d: NavDom)
  {
    && (d.ariaExpanded == "true" <==> IsOpenClass in d.wrapperClasses)
    && (IsOpenClass in d.wrapperClasses <==> d.ariaHidden == "false")
    && (d.ariaHidden == "false" <==> d.bodyOverflow == "hidden")
  }

  /** The wrapper classes other than is-open are the same. */
  predicate OtherClassesKept(d: NavDom, e: NavDom)
  {
    d.wrapperClasses - {IsOpenClass} == e.wrapperClasses - {IsOpenClass}
  }

  function Open(d: NavDom): (r: NavDom)
    ensures IsOpen(r) && IsOpenClass in r.wrapperClasses
    ensures r.ariaHidden == "false" && r.bodyOverflow == "hidden"
    ensures Mirrored(r) && OtherClassesKept(d, r)
  {
    NavDom("true", d.wrapperClasses + {IsOpenClass}, "false", "hidden")
  }

  function Close(d: NavDom): (r: NavDom)
    ensures r.ariaExpanded == "false" && IsOpenClass !in r.wrapperClasses
    ensures r.ariaHidden == "true" && r.bodyOverflow == ""
    ensures !IsOpen(r) && Mirrored(r) && OtherClassesKept(d, r)
  {
    NavDom("false", d.wrapperClasses - {IsOpenClass}, "true", "")
  }

  function Toggle(d: NavDom): (r: NavDom)
    ensures IsOpen(r) == !IsOpen(d)
    ensures Mirrored(r) && OtherClassesKept(d, r)
  {
    if d.ariaExpanded == "true" then Close(d) else Open(d)
  }

  /** The keydown listener: Escape closes an open menu, anything else is ignored. */
  function KeyDown(d: NavDom, key: string): (r: NavDom)
    ensures key == "Escape" && IsOpenClass in d.wrapperClasses ==> r == Close(d)
    ensures key != "Escape" || IsOpenClass !in d.wrapperClasses ==> r == d
    ensures Mirrored(d) ==> Mirrored(r)
  {
    if key == "Escape" && IsOpenClass in d.wrapperClasses then Close(d) else d
  }

  /** Where focus goes after a toggle: the toggle when closing, the close button (if
      any) when opening. */
  function ToggleFocus(d: NavDom, focus: Focus, hasCloseButton: bool): Focus
  {
    if IsOpen(d) then ToggleButton else if hasCloseButton then CloseButton else focus
  }

  /** A DOM state that open or close could have produced. */
  predicate Settled(d: NavDom)
  {
    d == Open(d) || d == Close(d)
  }

  /** Two toggles give back the state they started from. */
  lemma ToggleTwice(d: NavDom)
    requires Settled(d)
    ensures Toggle(Toggle(d)) == d
  {
  }

  /** From any DOM state, two toggles restore whether the menu reads as open. */
  lemma ToggleTwiceKeepsOpenState(d: NavDom)
    ensures IsOpen(Toggle(Toggle(d))) == IsOpen(d)
  {
  }

  /** The press wrapper: whether the handler runs and the new touchTriggered flag. */
  function PressGate(touchTriggered: bool, kind: PressKind): (r: (bool, bool))
    ensures r.0 <==> !(kind == Click && touchTriggered)
    ensures r.1 <==> kind == TouchEnd
  {
    match kind
    case Click => if touchTriggered then (false, false) else (true, touchTriggered)
    case TouchEnd => (true, true)
  }

  /** Handler runs, and the final flag, for a sequence of events on one element. */
  function PressRuns(touchTriggered: bool, events: seq<PressKind>): (r: (nat, bool))
    ensures r.0 <= |events|
    decreases events
  {
    if events == [] then (0, touchTriggered)
    else
      var (ran, flag) := PressGate(touchTriggered, events[0]);
      var (rest, final) := PressRuns(flag, events[1..]);
      ((if ran then 1 else 0) + rest, final)
  }

  /** One physical press: a tap delivers touchend then the compatibility click, a mouse
      press delivers a click. */
  function PressEvents(taps: seq<bool>): (r: seq<PressKind>)
    ensures |r| >= |taps|
  {
    if taps == [] then []
    else (if taps[0] then [TouchEnd, Click] else [Click]) + PressEvents(taps[1..])
  }

  /** Starting with the flag clear, the handler runs exactly once per physical press and
      the flag ends clear. */
  lemma {:induction false} OneRunPerPress(taps: seq<bool>)
    ensures PressRuns(false, PressEvents(taps)) == (|taps|, false)
  {
    if taps != [] {
      var head := if taps[0] then [TouchEnd, Click] else [Click];
      OneRunPerPress(taps[1..]);
      PressRunsAppend(false, head, PressEvents(taps[1..]));
    }
  }

  lemma {:induction false} PressRunsAppend(flag: bool, a: seq<PressKind>, b: seq<PressKind>)
    ensures PressRuns(flag, a + b)
      == (PressRuns(flag, a).0 + PressRuns(PressRuns(flag, a).1, b).0, PressRuns(PressRuns(flag, a).1, b).1)
    decreases a
  {
    if a == [] {
      assert a + b == b;
    } else {
      assert (a + b)[0] == a[0] && (a + b)[1..] == a[1..] + b;
      PressRunsAppend(PressGate(flag, a[0]).1, a[1..], b);
    }
  }

  /** A touchend with no click after it leaves the flag set, so the next genuine click
      is swallowed: n touchends and then a click run the handler n times, not n + 1,
      whatever the flag was before. */
  lemma {:induction false} TouchWithoutClickSwallowsNextClick(flag: bool, n: nat)
    requires n >= 1
    ensures PressRuns(flag, seq(n, _ => TouchEnd) + [Click]) == (n, false)
    decreases n
  {
    var events := seq(n, _ => TouchEnd) + [Click];
    assert events[0] == TouchEnd;
    if n == 1 {
      assert events[1..] == [Click];
      assert PressRuns(true, [Click]) == (0, false);
    } else {
      assert events[1..] == seq(n - 1, _ => TouchEnd) + [Click];
      TouchWithoutClickSwallowsNextClick(true, n - 1);
    }
  }

  /** The script's closure: element presence, the DOM it drives, and one touchTriggered
      flag per element wrapped by addPressListener. */
  class Menu {
    /** toggle and wrapper were both found; otherwise initialisation installed nothing */
    const installed: bool
    const hasCloseButton: bool
    const hasOverlay: bool
    const hasNav: bool
    var dom: NavDom
    var focus: Focus
    var toggleTouched: bool
    var closeTouched: bool
    var overlayTouched: bool

    constructor (hasToggle: bool, hasWrapper: bool, hasCloseButton: bool, hasOverlay: bool,
                 hasNav: bool, dom: NavDom, focus: Focus)
      ensures installed == (hasToggle && hasWrapper)
      ensures this.hasCloseButton == hasCloseButton && this.hasOverlay == hasOverlay
      ensures this.hasNav == hasNav
      ensures this.dom == dom && this.focus == focus
      ensures !toggleTouched && !closeTouched && !overlayTouched
    {
      installed := hasToggle && hasWrapper;
      this.hasCloseButton := hasCloseButton;
      this.hasOverlay := hasOverlay;
      this.hasNav := hasNav;
      this.dom := dom;
      this.focus := focus;
      toggleTouched, closeTouched, overlayTouched := false, false, false;
    }

    method OpenMenu()
      modifies this`dom, this`focus
      ensures dom == Open(old(dom))
      ensures focus == if hasCloseButton then CloseButton else old(focus)
    {
      dom := dom.(ariaExpanded := "true");
      dom := dom.(wrapperClasses := dom.wrapperClasses + {IsOpenClass});
      dom := dom.(ariaHidden := "false");
      dom := dom.(bodyOverflow := "hidden");
      if hasCloseButton {
        focus := CloseButton;
      }
    }

    method CloseMenu()
      modifies this`dom, this`focus
      ensures dom == Close(old(dom))
      ensures focus == ToggleButton
    {
      dom := dom.(ariaExpanded := "false");
      dom := dom.(wrapperClasses := dom.wrapperClasses - {IsOpenClass});
      dom := dom.(ariaHidden := "true");
      dom := dom.(bodyOverflow := "");
      focus := ToggleButton;
    }

    method HandleToggle()
      modifies this`dom, this`focus
      ensures dom == Toggle(old(dom))
      ensures focus == ToggleFocus(old(dom), old(focus), hasCloseButton)
    {
      var isOpen := dom.ariaExpanded == "true";
      if isOpen {
        CloseMenu();
      } else {
        OpenMenu();
      }
    }

    method HandleClose()
      modifies this`dom, this`focus
      ensures dom == Close(old(dom)) && focus == ToggleButton
    {
      CloseMenu();
    }

    /** An event on the toggle button, through the press wrapper. */
    method ToggleButtonPress(kind: PressKind)
      modifies this`dom, this`focus, this`toggleTouched
      ensures !installed ==> dom == old(dom) && toggleTouched == old(toggleTouched)
      ensures installed ==> toggleTouched == PressGate(old(toggleTouched), kind).1
      ensures installed ==>
        dom == if PressGate(old(toggleTouched), kind).0 then Toggle(old(dom)) else old(dom)
      ensures focus == if installed && PressGate(old(toggleTouched), kind).0
        then ToggleFocus(old(dom), old(focus), hasCloseButton) else old(focus)
      ensures old(Mirrored(dom)) ==> Mirrored(dom)
    {
      if installed {
        var run;
        run, toggleTouched := PressGate(toggleTouched, kind).0, PressGate(toggleTouched, kind).1;
        if run {
          HandleToggle();
        }
      }
    }

    /** An event on the close button, through the press wrapper. */
    method CloseButtonPress(kind: PressKind)
      modifies this`dom, this`focus, this`closeTouched
      ensures !(installed && hasCloseButton) ==> dom == old(dom) && closeTouched == old(closeTouched)
      ensures installed && hasCloseButton ==> closeTouched == PressGate(old(closeTouched), kind).1
      ensures installed && hasCloseButton ==>
        dom == if PressGate(old(closeTouched), kind).0 then Close(old(dom)) else old(dom)
      ensures focus == if installed && hasCloseButton && PressGate(old(closeTouched), kind).0
        then ToggleButton else old(focus)
      ensures old(Mirrored(dom)) ==> Mirrored(dom)
    {
      if installed && hasCloseButton {
        var run;
        run, closeTouched := PressGate(closeTouched, kind).0, PressGate(closeTouched, kind).1;
        if run {
          HandleClose();
        }
      }
    }

    /** An event on the overlay, through the press wrapper. */
    method OverlayPress(kind: PressKind)
      modifies this`dom, this`focus, this`overlayTouched
      ensures !(installed && hasOverlay) ==> dom == old(dom) && overlayTouched == old(overlayTouched)
      ensures installed && hasOverlay ==> overlayTouched == PressGate(old(overlayTouched), kind).1
      ensures installed && hasOverlay ==>
        dom == if PressGate(old(overlayTouched), kind).0 then Close(old(dom)) else old(dom)
      ensures focus == if installed && hasOverlay && PressGate(old(overlayTouched), kind).0
        then ToggleButton else old(focus)
      ensures old(Mirrored(dom)) ==> Mirrored(dom)
    {
      if installed && hasOverlay {
        var run;
        run, overlayTouched := PressGate(overlayTouched, kind).0, PressGate(overlayTouched, kind).1;
        if run {
          HandleClose();
        }
      }
    }

    /** A click on a link inside the nav closes the menu directly (no press wrapper). */
    method NavLinkClick()
      modifies this`dom, this`focus
      ensures installed && hasNav ==> dom == Close(old(dom)) && focus == ToggleButton
      ensures !(installed && hasNav) ==> dom == old(dom) && focus == old(focus)
    {
      if installed && hasNav {
        CloseMenu();
      }
    }

    /** The document keydown listener. */
    method OnKeyDown(key: string)
      modifies this`dom, this`focus
      ensures dom == if installed then KeyDown(old(dom), key) else old(dom)
      ensures installed && key == "Escape" && IsOpenClass in old(dom).wrapperClasses ==>
        focus == ToggleButton
      ensures !installed || key != "Escape" || IsOpenClass !in old(dom).wrapperClasses ==>
        focus == old(focus)
    {
      if installed && key == "Escape" && IsOpenClass in dom.wrapperClasses {
        CloseMenu();
      }
    }
  }

  /** A tap on the toggle opens the menu once despite the follow-up click; Escape closes it. */
  method TapScenario()
  {
    var m := new Menu(true, true, true, true, true,
      NavDom("false", {"mobile-nav-wrapper"}, "true", ""), Elsewhere);
    m.ToggleButtonPress(TouchEnd);
    m.ToggleButtonPress(Click);
    assert IsOpen(m.dom) && m.dom.bodyOverflow == "hidden" && m.focus == CloseButton;
    m.OnKeyDown("Enter");
    assert IsOpen(m.dom);
    m.OnKeyDown("Escape");
    assert !IsOpen(m.dom) && m.dom.wrapperClasses == {"mobile-nav-wrapper"};
    m.OnKeyDown("Escape");
    assert m.dom == NavDom("false", {"mobile-nav-wrapper"}, "true", "");
  }
}
