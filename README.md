# PrismGB site behaviour, modelled in Dafny

This project models the four pieces of logic behind the PrismGB download site:

- **Shared canvas animator** (`animator.dfy`, module `DemoAnimator`). One frame loop
  drives every registered demo renderer. The loop runs only while at least one renderer
  is registered, the page is visible, the user has not asked for reduced motion, and the
  host has a frame scheduler. The class `Animator` holds the renderer set (a sequence of
  entries with distinct ids, in insertion order, each with a ctx and a canvas), the pending frame handle, the
  elapsed-time origin and the two pause flags. Its methods are `Tick` (with its running
  part `RunFrame`), `StartLoop`, `StopLoop`, `RefreshLoop`, `RegisterRenderer`, `Dispose`
  (with the disposer closure `RemoveRenderer`) and the two listener setters.
  The host's `requestAnimationFrame`/`cancelAnimationFrame` are a handle counter
  (`nextHandle`) and the set of outstanding requests (`hostFrames`). A render call is
  appended to `log` as `RenderCall(id, width, height, time)`.
- **Scroll-aware header** (`scroll_header.dfy`, module `ScrollHeader`). `Update` is the
  `updateHeader` transition over the closure variables and the header's class list. The
  class `Header` runs it in place. `OnScroll` gates updates through `ticking` and a count
  of pending host frames.
- **Release data** (`github.dfy`, module `GitHub`). This covers the template platform
  list, the fallback data, the asset-name patterns, first-match asset selection, tag
  stripping, and mapping a decoded release record to the platform list. The fetch is an
  input: `FetchFailed` or `Fetched(release)`.
- **Mobile navigation** (`mobile_nav.dfy`, module `MobileNav`). `Open`, `Close`,
  `Toggle` and `KeyDown` act on the four DOM mirrors of the open state. `PressGate` is
  the touchend/click de-duplication. The class `Menu` holds the DOM state, the focus and
  one `touchTriggered` flag per wrapped element.

Integers stand for timestamps (milliseconds), scroll positions and canvas sizes (pixels).
JavaScript `null` and missing keys are both `None` (module `Wrappers`, `wrappers.dfy`).

## Model

| member | source | states |
|---|---|---|
| `DemoAnimator.RemoveId` | src/scripts/demo-animator.js:98 | deleting a renderer keeps exactly the other entries and never adds one |
| `DemoAnimator.RemoveIdAbsent` | src/scripts/demo-animator.js:97-100 | deleting an id that is not registered leaves the renderer sequence unchanged |
| `DemoAnimator.RemoveIdIdempotent` | src/scripts/demo-animator.js:97-100 | running a disposer a second time removes nothing more |
| `DemoAnimator.RemoveIdAppend` | src/scripts/demo-animator.js:98 | deleting from two concatenated parts deletes from each part and keeps their order |
| `DemoAnimator.RemoveIdExact` | src/scripts/demo-animator.js:98 | with distinct ids, deleting the entry at position k leaves the entries before k and the entries after k, each in insertion order |
| `DemoAnimator.RemoveIdLength` | src/scripts/demo-animator.js:98 | with distinct ids, a delete shrinks the set by one exactly when the id is registered, and otherwise not at all |
| `DemoAnimator.RemoveIdDistinct` | src/scripts/demo-animator.js:93-100 | after a removal the entries stay distinct and the removed id is gone |
| `DemoAnimator.Frame` | src/scripts/demo-animator.js:51-54 | one frame makes at most as many calls as there are entries, and every call carries the frame's time |
| `DemoAnimator.Origin` | src/scripts/demo-animator.js:48 | once set, the elapsed-time origin never moves; it stays unset only when it was unset and the tick's timestamp is 0 |
| `DemoAnimator.FrameCallsEveryRenderer` | src/scripts/demo-animator.js:51-54 | when every entry has a ctx and a canvas, one frame makes one call per renderer, in insertion order, with the canvas's current width and height and the frame's time |
| `DemoAnimator.FrameCallsAreRegistered` | src/scripts/demo-animator.js:51-54 | every render call of a frame is for a registered renderer and carries that frame's time |
| `DemoAnimator.FrameCallIds` | src/scripts/demo-animator.js:51-54 | with distinct ids, a frame calls each renderer at most once, and it calls a registered renderer if and only if that entry has both a ctx and a canvas |
| `DemoAnimator.FrameExtendsLog` | src/scripts/demo-animator.js:51-54 | when every entry has a ctx and a canvas, appending a frame to a log adds exactly one call per entry after the old calls, in insertion order, at the canvas's current size and the frame's time |
| `DemoAnimator.FrameOfOne` | src/scripts/demo-animator.js:51-54 | a frame over a single drawable renderer is exactly its one call, with the canvas's current size |
| `DemoAnimator.ElapsedTimeAfterStart` | src/scripts/demo-animator.js:48-49 | the first tick after a start delivers 0 and later ticks deliver time since that tick, except that a first timestamp of 0 leaves the origin unset |
| `DemoAnimator.RenderFrame` | src/scripts/demo-animator.js:51-54 | the forEach loop produces exactly `Frame(renderers, time)`, skipping entries without ctx or canvas |
| `DemoAnimator.Animator.constructor` | src/scripts/demo-animator.js:6-24 | start state: no renderers, no pending frame, origin unset, flags from the hidden state and the reduced-motion query |
| `DemoAnimator.Animator.ShouldRun` | src/scripts/demo-animator.js:33-40 | the loop runs only with at least one renderer and a frame scheduler, and either pause flag stops it |
| `DemoAnimator.Animator.Tick` | src/scripts/demo-animator.js:42-57 | if the loop should not run, clears the pending handle and renders nothing; otherwise fixes the origin if unset, appends `Frame(renderers, timestamp - origin)` to the log and requests exactly one new frame. So a running tick logs one call per registered renderer, in insertion order, at the canvas's current size and the elapsed time. The stop branch leaves the handle counter unchanged |
| `DemoAnimator.Animator.RunFrame` | src/scripts/demo-animator.js:48-56 | the origin becomes the timestamp if unset and stays otherwise, the log grows by exactly `Frame(renderers, timestamp - origin)`, and exactly one fresh frame handle is requested and pending |
| `DemoAnimator.Animator.StopLoop` | src/scripts/demo-animator.js:59-64 | cancels any pending request; afterwards no frame is pending at the host |
| `DemoAnimator.Animator.StartLoop` | src/scripts/demo-animator.js:66-71 | requests a frame only when none is pending and the loop should run, and then resets the origin to 0; otherwise changes nothing (no double scheduling) |
| `DemoAnimator.Animator.RefreshLoop` | src/scripts/demo-animator.js:33-79 | afterwards a frame is pending iff renderers ≠ ∅ ∧ ¬pausedByVisibility ∧ ¬pausedByPreference ∧ scheduler present; a pending frame that should still run keeps its handle and origin; changes nothing when that already held |
| `DemoAnimator.Animator.RegisterRenderer` | src/scripts/demo-animator.js:88-101 | a null ctx or canvas changes nothing, including the id and handle counters, and returns the no-op disposer; otherwise appends a fresh entry (so equal ctx/canvas pairs stay distinct) and refreshes the loop |
| `DemoAnimator.Animator.RemoveRenderer` | src/scripts/demo-animator.js:97-100 | the disposer closure deletes exactly its own entry (`RemoveId`), restores "pending iff should run", keeps a running loop's handle and origin, and changes nothing for an id no longer registered |
| `DemoAnimator.Animator.Dispose` | src/scripts/demo-animator.js:88-100 | the no-op disposer changes nothing; a real one removes exactly its own entry and refreshes; a loop that keeps running keeps its pending handle and elapsed-time origin; a second call changes nothing |
| `DemoAnimator.Animator.SetPausedByVisibility` | src/scripts/demo-animator.js:26-31 | sets only the visibility flag, then the loop is pending iff it should run |
| `DemoAnimator.Animator.SetPausedByPreference` | src/scripts/demo-animator.js:18-24 | sets only the preference flag, then the loop is pending iff it should run |
| `ScrollHeader.Update` | public/scripts/scroll-header.js:25-66 | `isCompact == (scrollY > 100)` whatever the prior state; `ticking` ends false; below 10 the header is at the top, shown and re-based; from 10 up, a move under 5 px keeps `isHidden` and the baseline and a move of ≥ 5 px re-bases to the current position; past 60 a move down of ≥ 5 hides and up of ≥ 5 shows; between 10 and 60 `isHidden` never changes; class list mirrors both flags if it did before; other classes untouched |
| `ScrollHeader.SmallMovesKeepBaseline` | public/scripts/scroll-header.js:49-52 | two sub-threshold moves are measured against the same old baseline |
| `ScrollHeader.ReducedMotionChangeAsWritten` | public/scripts/scroll-header.js:81-92 | entering reduced motion strips `is-hidden`/`is-compact` but keeps both flags; leaving it runs one update |
| `ScrollHeader.StaleCompactAfterReducedMotion` | public/scripts/scroll-header.js:81-92 | as written, entering and leaving reduced motion at 500 px leaves `isCompact` true with no `is-compact` class |
| `ScrollHeader.ReducedMotionChange` | public/scripts/scroll-header.js:81-92 | corrected listener: keeps the class list mirroring the flags, and after leaving reduced motion `is-compact` is present iff scrollY > 100 |
| `ScrollHeader.ReducedMotionRoundTrip` | public/scripts/scroll-header.js:81-92 | with the correction, entering then leaving reduced motion always ends mirrored and compact iff past 100 px |
| `ScrollHeader.Header.constructor` | public/scripts/scroll-header.js:11-79 | flags start false; without reduced motion one update runs at start-up |
| `ScrollHeader.Header.UpdateHeader` | public/scripts/scroll-header.js:25-66 | the in-place update equals `Update` on the old state and keeps the class list mirroring the flags |
| `ScrollHeader.Header.OnScroll` | public/scripts/scroll-header.js:68-74 | does nothing while the mobile nav is open or an update is pending; otherwise requests one update and sets `ticking`; keeps "at most one pending, exactly while ticking" |
| `ScrollHeader.Header.RunScheduledUpdate` | public/scripts/scroll-header.js:25-74 | the host runs one requested update; afterwards none is pending if the gating held |
| `ScrollHeader.Header.OnReducedMotionChange` | public/scripts/scroll-header.js:81-92 | runs the corrected reduced-motion listener in place |
| `GitHub.BuildPlatformData` | src/lib/github.js:29-63 | four entries whose file names and download links are the per-platform templates for the version, with no size |
| `GitHub.DownloadUrlIsBasePlusFileName` | src/lib/github.js:29-61 | every template download link is the release-download base for the version, "/", then the file name |
| `GitHub.Pattern` | src/lib/github.js:14-19 | each platform's pattern brackets the version in that platform's template file name: prefix, version, suffix |
| `GitHub.FallbackData` | src/lib/github.js:24-72 | version "1.0.0", the releases page, no publish date, platforms `BuildPlatformData("1.0.0")` |
| `GitHub.PatternAccepts` | src/lib/github.js:14-19 | prefix + a non-empty run of digits and dots + suffix matches the pattern |
| `GitHub.Matches` | src/lib/github.js:78 | a matching name is longer than prefix and suffix together, and the character before the suffix is a digit or a dot |
| `GitHub.SuffixClash` | src/lib/github.js:14-19 | a name whose end differs from the pattern's suffix does not match (the patterns are end-anchored) |
| `GitHub.TemplateMatchesOwnPatternOnly` | src/lib/github.js:14-59 | for a non-empty digits-and-dots version, a platform's template file name matches its own pattern and no other |
| `GitHub.FindAsset` | src/lib/github.js:77-79 | a found asset is in the list and matches; nothing found means no asset matches |
| `GitHub.FindAssetFirst` | src/lib/github.js:77-79 | find returns the first matching asset in list order |
| `GitHub.FindAssetNone` | src/lib/github.js:77-79 | find returns nothing exactly when no asset matches |
| `GitHub.GetAssetInfo` | src/lib/github.js:147-164 | file name and link are both present or both null, size is present exactly with them, and a present file name matches the platform pattern |
| `GitHub.GetAssetInfoFirstMatch` | src/lib/github.js:147-157 | with a match, the info is the first matching asset's name, browser_download_url and size |
| `GitHub.GetAssetInfoNoMatch` | src/lib/github.js:159-163 | with no match, file name and link are null and size is absent |
| `GitHub.StripTag` | src/lib/github.js:100 | the version is the tag with at most one leading "v" removed, and exactly one when the tag starts with "v" |
| `GitHub.LivePlatforms` | src/lib/github.js:103-130 | four entries, entry i carrying the asset info of platform i |
| `GitHub.LivePlatformsAgreeWithTemplate` | src/lib/github.js:29-130 | live and template lists have the same names, icons, labels and subtitles in the same order: windows, macos-arm64, macos-x64, linux |
| `GitHub.LatestRelease` | src/lib/github.js:85-142 | a failed fetch, or a release without tag_name (the replace call throws), yields the fallback data |
| `GitHub.LatestReleaseFromRecord` | src/lib/github.js:100-137 | a live release reports the stripped tag, html_url and published_at, its platforms are `LivePlatforms` of its assets (none when the list is missing), and a missing asset list behaves as an empty one |
| `GitHub.TemplateAssetSelected` | src/lib/github.js:147-157 | among the template assets of a version, each platform selects its own asset |
| `GitHub.LiveReleaseMatchesTemplate` | src/lib/github.js:29-137 | a release tagged "v" + version carrying the template assets yields the template's file names and links, the assets' sizes, and the version |
| `MobileNav.Open` | public/scripts/mobile-nav.js:11-17 | aria-expanded "true", `is-open` added, aria-hidden "false", overflow "hidden"; the four mirrors agree; other classes kept |
| `MobileNav.Close` | public/scripts/mobile-nav.js:19-25 | aria-expanded "false", `is-open` removed, aria-hidden "true", overflow cleared; the four mirrors agree; other classes kept |
| `MobileNav.Toggle` | public/scripts/mobile-nav.js:27-34 | flips the open state read from aria-expanded and leaves the mirrors agreeing |
| `MobileNav.ToggleTwice` | public/scripts/mobile-nav.js:27-34 | two toggles give back any state that open or close produced |
| `MobileNav.ToggleTwiceKeepsOpenState` | public/scripts/mobile-nav.js:27-34 | from any DOM state, two toggles restore whether the menu reads as open |
| `MobileNav.KeyDown` | public/scripts/mobile-nav.js:70-74 | Escape closes only when `is-open` is present; any other key, or Escape while closed, changes nothing |
| `MobileNav.PressGate` | public/scripts/mobile-nav.js:44-54 | the handler runs unless a click follows a touchend; the flag ends set exactly after a touchend |
| `MobileNav.OneRunPerPress` | public/scripts/mobile-nav.js:40-58 | over any run of taps (touchend then click) and mouse clicks, the handler runs once per press and the flag ends clear |
| `MobileNav.PressRunsAppend` | public/scripts/mobile-nav.js:44-54 | the press wrapper over two event runs is the first run followed by the second from the flag it left |
| `MobileNav.TouchWithoutClickSwallowsNextClick` | public/scripts/mobile-nav.js:45-52 | n ≥ 1 touchends followed by a click run the handler n times and leave the flag clear, whatever the flag was before: the click after a stray touchend is swallowed |
| `MobileNav.Menu.constructor` | public/scripts/mobile-nav.js:3-9 | initialisation installs listeners only when both toggle and wrapper exist and changes no DOM state |
| `MobileNav.Menu.OpenMenu` | public/scripts/mobile-nav.js:11-17 | the DOM becomes `Open` of the old DOM and focus moves to the close button if there is one |
| `MobileNav.Menu.CloseMenu` | public/scripts/mobile-nav.js:19-25 | the DOM becomes `Close` of the old DOM and focus moves to the toggle |
| `MobileNav.Menu.HandleToggle` | public/scripts/mobile-nav.js:27-34 | the DOM becomes `Toggle` of the old DOM |
| `MobileNav.Menu.HandleClose` | public/scripts/mobile-nav.js:36-38 | always ends closed |
| `MobileNav.Menu.ToggleButtonPress` | public/scripts/mobile-nav.js:40-60 | a toggle event goes through the press wrapper and toggles when it runs; mirrors stay in agreement |
| `MobileNav.Menu.CloseButtonPress` | public/scripts/mobile-nav.js:40-61 | a close-button event goes through the press wrapper; when it runs the menu closes and focus moves to the toggle, otherwise DOM and focus stay |
| `MobileNav.Menu.OverlayPress` | public/scripts/mobile-nav.js:40-62 | an overlay event goes through the press wrapper; when it runs the menu closes and focus moves to the toggle, otherwise DOM and focus stay |
| `MobileNav.Menu.NavLinkClick` | public/scripts/mobile-nav.js:64-68 | a click on a nav link always ends closed |
| `MobileNav.Menu.OnKeyDown` | public/scripts/mobile-nav.js:70-74 | the keydown listener applies `KeyDown`; Escape on an open menu moves focus to the toggle, and focus stays put otherwise |

## Findings

| source | as written | input that shows it | evidently intended | confidence | as-written member | corrected member |
|---|---|---|---|---|---|---|
| public/scripts/scroll-header.js:85-88 | entering reduced motion removes `is-hidden` and `is-compact` but leaves `isHidden`/`isCompact` set; on leaving it, `updateHeader` only adds `is-compact` when `isCompact` is false | header compact at scrollY 500, reduced motion switched on and then off at 500: `isCompact` is true and `is-compact` is missing until the page is scrolled back above 100 px | the flags are reset with the classes, so the class list keeps mirroring them | medium (not executed) | `ScrollHeader.StaleCompactAfterReducedMotion` | `ScrollHeader.ReducedMotionChange` |

The class `ScrollHeader.Header` uses the corrected listener. `ReducedMotionChangeAsWritten`
keeps the code as written.

## Left out

- src/scripts/demo-canvas.js is not part of this model. It is canvas drawing with floating-point trigonometry and host canvases.
- The network fetch in `getLatestRelease` (`fetch`, `response.ok`, `response.json()`, `console.warn`) is not modelled. Its outcome is the `FetchResult` input. Every failure, including a bad status, is `FetchFailed`.
- Regular expressions in general are not modelled. Each asset pattern is spelled out as prefix, a non-empty run of ASCII digits and dots, then suffix, anchored at the end only.
- Asset records are assumed well formed (a string `name`, a `browser_download_url`, a numeric `size`). The source's behaviour on malformed asset entries is not modelled.
- Host scheduling and event plumbing (`requestAnimationFrame`, `matchMedia`, `addEventListener`/`removeEventListener`, `document.readyState`, focus handling beyond "which element has focus") are abstract. Scroll position, `document.hidden`, the media-query result and `isNavOpen()` are parameters.
- The scroll header's scroll-listener removal while reduced motion is on is not modelled. `OnScroll` models the listener itself.
- Floating-point timestamps and fractional scroll positions are taken as integers.
- Exceptions thrown by render callbacks are not modelled. They are unguarded in the source and their effect is unspecified.
- `DemoAnimator.Animator.RunFrame` requests the next frame before rendering, where the source renders first. The two orders agree because a render call here only records itself and cannot throw or re-enter the animator.
- Render callbacks are opaque, so a callback that disposes a renderer in the middle of a tick (re-entrancy) is not modelled.
- The preference listener is only installed when `matchMedia` exists. The model always lets `SetPausedByPreference` be called.
- `ScrollHeader.Header.constructor`: requires the header markup to start without `is-hidden`/`is-compact`. The source starts both flags false and assumes this.
- `ScrollHeader.Header.OnScroll`: the "one pending update" gating is stated for scroll-driven updates. The direct update made when reduced motion is switched off clears `ticking` even if a frame is still pending.
- `GitHub.LatestRelease`: JavaScript null and a missing key are both `None`, so "`size` absent" and "`size: null`" are not told apart.
