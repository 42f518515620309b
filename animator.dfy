/**
 * Shared canvas animator (src/scripts/demo-animator.js): one frame loop fans out to
 * every registered renderer, and runs only while there is something to draw, the page
 * is visible and the user has not asked for reduced motion.
 *
 * The host's requestAnimationFrame / cancelAnimationFrame become a handle counter and
 * the set of outstanding frame requests (hostFrames), updated where the source calls them; a renderer is known by a fresh id; calling
 * render(ctx, width, height, time) appends a RenderCall to a log.
 */
module DemoAnimator {
  import opened Wrappers

  /** A canvas element; its size can change between frames. */
  class Canvas {
    var width: int
    var height: int

    constructor (width: int, height: int)
      ensures this.width == width && this.height == height
    {
      this.width := width;
      this.height := height;
    }
  }

  /** A 2D drawing context; only its presence matters here. */
  class Context {
    constructor () {}
  }

  /** One registration: the { ctx, canvas, render } record, render known by id. */
  datatype Renderer = Renderer(id: nat, ctx: Context?, canvas: Canvas?)

  datatype RenderCall = RenderCall(id: nat, width: int, height: int, time: int)

  /** The cleanup function registerRenderer returns. */
  datatype Disposer = NoOp | Unregister(id: nat)

  predicate HasId(rs: seq<Renderer>, id: nat)
  {
    exists i | 0 <= i < |rs| :: rs[i].id == id
  }

  /** Set semantics: no renderer appears twice. */
  predicate DistinctIds(rs: seq<Renderer>)
  {
    forall i, j | 0 <= i < j < |rs| :: rs[i].id != rs[j].id
  }

  /** Set.prototype.delete: the entries other than id, in insertion order. */
  function RemoveId(rs: seq<Renderer>, id: nat): (r: seq<Renderer>)
    ensures forall i | 0 <= i < |r| :: r[i] in rs && r[i].id != id
    ensures forall i | 0 <= i < |rs| && rs[i].id != id :: rs[i] in r
    ensures |r| <= |rs|
  {
    if rs == [] then []
    else if rs[0].id == id then RemoveId(rs[1..], id)
    else [rs[0]] + RemoveId(rs[1..], id)
  }

  /** No renderer is called twice. */
  predicate DistinctCalls(calls: seq<RenderCall>)
  {
    forall j, k | 0 <= j < k < |calls| :: calls[j].id != calls[k].id
  }

  /** Some call of the sequence is for this id. */
  predicate CallsId(calls: seq<RenderCall>, id: nat)
  {
    exists j | 0 <= j < |calls| :: calls[j].id == id
  }

  function CanvasesOf(rs: seq<Renderer>): set<Canvas>
  {
    set r | r in rs && r.canvas != null :: r.canvas
  }

  /** The render calls one frame makes, in insertion order, skipping entries without a
      context or canvas; sizes are read from the canvases now. */
  function Frame(rs: seq<Renderer>, time: int): (r: seq<RenderCall>)
    reads CanvasesOf(rs)`width, CanvasesOf(rs)`height
    ensures |r| <= |rs|
    ensures forall i | 0 <= i < |r| :: r[i].time == time
  {
    if rs == [] then []
    else
      var last := rs[|rs| - 1];
      assert CanvasesOf(rs[..|rs| - 1]) <= CanvasesOf(rs);
      Frame(rs[..|rs| - 1], time) +
        if last.ctx != null && last.canvas != null
        then [RenderCall(last.id, last.canvas.width, last.canvas.height, time)]
        else []
  }

  /** The elapsed-time origin after a tick at timestamp; 0 means "not set yet". */
  function Origin(startTime: int, timestamp: int): (r: int)
    ensures startTime != 0 ==> r == startTime
    ensures r == 0 <==> startTime == 0 && timestamp == 0
  {
    if startTime == 0 then timestamp else startTime
  }

  /** The first tick after a start delivers time 0; a later tick delivers the time since
      that first tick, unless the first tick's timestamp was 0, which leaves the origin
      unset so the next tick becomes the origin again. */
  lemma ElapsedTimeAfterStart(t0: int, t1: int)
    ensures t0 - Origin(0, t0) == 0
    ensures t0 != 0 ==> t1 - Origin(Origin(0, t0), t1) == t1 - t0
    ensures t0 == 0 ==> t1 - Origin(Origin(0, t0), t1) == 0
  {
  }

  /** Removing an id that is not registered changes nothing. */
  lemma {:induction false} RemoveIdAbsent(rs: seq<Renderer>, id: nat)
    requires !HasId(rs, id)
    ensures RemoveId(rs, id) == rs
  {
    if rs != [] {
      assert rs[0].id != id;
      assert !HasId(rs[1..], id) by {
        forall i | 0 <= i < |rs[1..]| ensures rs[1..][i].id != id {
          assert rs[1..][i] == rs[i + 1];
        }
      }
      RemoveIdAbsent(rs[1..], id);
    }
  }

  /** A disposer run twice removes nothing the second time. */
  lemma RemoveIdIdempotent(rs: seq<Renderer>, id: nat)
    ensures RemoveId(RemoveId(rs, id), id) == RemoveId(rs, id)
  {
  }

  /** Deleting from a concatenation deletes from each part. */
  lemma {:induction false} RemoveIdAppend(a: seq<Renderer>, b: seq<Renderer>, id: nat)
    ensures RemoveId(a + b, id) == RemoveId(a, id) + RemoveId(b, id)
  {
    if a == [] {
      assert a + b == b;
    } else {
      assert (a + b)[0] == a[0] && (a + b)[1..] == a[1..] + b;
      RemoveIdAppend(a[1..], b, id);
    }
  }

  /** With distinct ids, deleting the entry at k leaves the entries before it and the
      entries after it, in their insertion order. */
  lemma RemoveIdExact(rs: seq<Renderer>, id: nat, k: int)
    requires DistinctIds(rs) && 0 <= k < |rs| && rs[k].id == id
    ensures RemoveId(rs, id) == rs[..k] + rs[k + 1..]
  {
    assert rs == rs[..k] + ([rs[k]] + rs[k + 1..]);
    RemoveIdAppend(rs[..k], [rs[k]] + rs[k + 1..], id);
    RemoveIdAppend([rs[k]], rs[k + 1..], id);
    assert !HasId(rs[..k], id) by {
      forall i | 0 <= i < k ensures rs[..k][i].id != id {
        assert rs[..k][i] == rs[i];
      }
    }
    var after := rs[k + 1..];
    assert !HasId(after, id) by {
      forall i | 0 <= i < |after| ensures after[i].id != id {
        assert after[i] == rs[k + 1 + i];
      }
    }
    RemoveIdAbsent(rs[..k], id);
    RemoveIdAbsent(rs[k + 1..], id);
    assert RemoveId([rs[k]], id) == [];
  }

  /** With distinct ids, a delete removes one entry exactly when the id is registered. */
  lemma RemoveIdLength(rs: seq<Renderer>, id: nat)
    requires DistinctIds(rs)
    ensures |RemoveId(rs, id)| == |rs| - (if HasId(rs, id) then 1 else 0)
  {
    if HasId(rs, id) {
      var k :| 0 <= k < |rs| && rs[k].id == id;
      RemoveIdExact(rs, id, k);
    } else {
      RemoveIdAbsent(rs, id);
    }
  }

  /** Removing one id keeps the other entries' ids distinct and drops that id. */
  lemma {:induction false} RemoveIdDistinct(rs: seq<Renderer>, id: nat)
    requires DistinctIds(rs)
    ensures DistinctIds(RemoveId(rs, id)) && !HasId(RemoveId(rs, id), id)
  {
    var r := RemoveId(rs, id);
    if rs != [] {
      assert DistinctIds(rs[1..]) by {
        forall i, j | 0 <= i < j < |rs[1..]| ensures rs[1..][i].id != rs[1..][j].id {
          assert rs[1..][i] == rs[i + 1] && rs[1..][j] == rs[j + 1];
        }
      }
      RemoveIdDistinct(rs[1..], id);
      var tail := RemoveId(rs[1..], id);
      forall x | x in tail ensures x.id != rs[0].id {
        var k :| 0 <= k < |rs[1..]| && rs[1..][k] == x;
        assert rs[1..][k] == rs[k + 1];
      }
    }
    forall i | 0 <= i < |r| ensures r[i].id != id {
      assert r[i] in r;
    }
  }

  /** When every entry has a context and a canvas, a frame makes exactly one call per
      renderer, in insertion order, with that canvas's current size. */
  lemma {:induction false} FrameCallsEveryRenderer(rs: seq<Renderer>, time: int)
    requires forall i | 0 <= i < |rs| :: rs[i].ctx != null && rs[i].canvas != null
    ensures |Frame(rs, time)| == |rs|
    ensures forall i | 0 <= i < |rs| ::
      Frame(rs, time)[i] == RenderCall(rs[i].id, rs[i].canvas.width, rs[i].canvas.height, time)
  {
    if rs != [] {
      var init := rs[..|rs| - 1];
      FrameCallsEveryRenderer(init, time);
      forall i | 0 <= i < |init| ensures init[i] == rs[i] {}
    }
  }

  /** With distinct ids, a frame calls each renderer at most once, and it calls exactly
      the entries that have both a context and a canvas. */
  lemma {:induction false} FrameCallIds(rs: seq<Renderer>, time: int)
    requires DistinctIds(rs)
    ensures DistinctCalls(Frame(rs, time))
    ensures forall i | 0 <= i < |rs| ::
      CallsId(Frame(rs, time), rs[i].id) <==> rs[i].ctx != null && rs[i].canvas != null
  {
    if rs != [] {
      var init := rs[..|rs| - 1];
      var last := rs[|rs| - 1];
      assert DistinctIds(init) by {
        forall i, j | 0 <= i < j < |init| ensures init[i].id != init[j].id {
          assert init[i] == rs[i] && init[j] == rs[j];
        }
      }
      FrameCallIds(init, time);
      FrameCallsAreRegistered(init, time);
      var head := Frame(init, time);
      var calls := Frame(rs, time);
      forall j | 0 <= j < |head| ensures head[j].id != last.id {
        assert head[j] in head;
        var k :| 0 <= k < |init| && init[k].id == head[j].id;
        assert init[k] == rs[k];
      }
      var tail := if last.ctx != null && last.canvas != null
        then [RenderCall(last.id, last.canvas.width, last.canvas.height, time)]
        else [];
      assert calls == head + tail;
      forall j, k | 0 <= j < k < |calls| ensures calls[j].id != calls[k].id {
        assert calls[j] == head[j];
        if k < |head| {
          assert calls[k] == head[k];
        } else {
          assert calls[k] == tail[0];
        }
      }
      forall i | 0 <= i < |rs|
        ensures CallsId(calls, rs[i].id) <==> rs[i].ctx != null && rs[i].canvas != null
      {
        if i < |init| {
          assert rs[i] == init[i];
          assert rs[i].id != last.id;
          if CallsId(head, rs[i].id) {
            var j :| 0 <= j < |head| && head[j].id == rs[i].id;
            assert calls[j] == head[j];
          }
          if CallsId(calls, rs[i].id) {
            var j :| 0 <= j < |calls| && calls[j].id == rs[i].id;
            assert j < |head|;
            assert calls[j] == head[j];
          }
        } else {
          if last.ctx != null && last.canvas != null {
            assert calls[|head|].id == last.id;
          }
        }
      }
    }
  }

  /** A frame over drawable entries appends one call per entry, in insertion order, to
      whatever was logged before. */
  lemma FrameExtendsLog(before: seq<RenderCall>, rs: seq<Renderer>, time: int)
    requires forall i | 0 <= i < |rs| :: rs[i].ctx != null && rs[i].canvas != null
    ensures |before + Frame(rs, time)| == |before| + |rs|
    ensures forall i | 0 <= i < |rs| ::
      (before + Frame(rs, time))[|before| + i]
        == RenderCall(rs[i].id, rs[i].canvas.width, rs[i].canvas.height, time)
  {
    FrameCallsEveryRenderer(rs, time);
  }

  /** A frame over one drawable renderer is its one call. */
  lemma FrameOfOne(r: Renderer, time: int)
    requires r.ctx != null && r.canvas != null
    ensures Frame([r], time) == [RenderCall(r.id, r.canvas.width, r.canvas.height, time)]
  {
    assert [r][..0] == [];
  }

  /** Every call of a frame is for a registered renderer and carries the frame's time. */
  lemma {:induction false} FrameCallsAreRegistered(rs: seq<Renderer>, time: int)
    ensures forall c | c in Frame(rs, time) :: c.time == time && HasId(rs, c.id)
  {
    if rs != [] {
      var init := rs[..|rs| - 1];
      FrameCallsAreRegistered(init, time);
      forall c | c in Frame(rs, time) ensures c.time == time && HasId(rs, c.id) {
        if c in Frame(init, time) {
          var k :| 0 <= k < |init| && init[k].id == c.id;
          assert rs[k] == init[k];
        } else {
          assert rs[|rs| - 1].id == c.id;
        }
      }
    }
  }

  /** The renderers.forEach loop of one tick. */
  method RenderFrame(rs: seq<Renderer>, time: int) returns (calls: seq<RenderCall>)
    ensures calls == Frame(rs, time)
  {
    calls := [];
    var i := 0;
    while i < |rs|
      invariant 0 <= i <= |rs|
      invariant calls == Frame(rs[..i], time)
    {
      var r := rs[i];
      assert rs[..i + 1][..i] == rs[..i];
      if r.ctx != null && r.canvas != null {
        calls := calls + [RenderCall(r.id, r.canvas.width, r.canvas.height, time)];
      }
      i := i + 1;
    }
    assert rs[..|rs|] == rs;
  }

  class Animator {
    /** typeof requestAnimationFrame !== 'undefined' */
    const hasFrameScheduler: bool
    var renderers: seq<Renderer>
    var animationId: Option<nat>
    var startTime: int
    var pausedByVisibility: bool
    var pausedByPreference: bool
    /** the render calls made so far */
    var log: seq<RenderCall>
    /** next renderer id */
    var nextId: nat
    /** host: next frame handle, and the frame requests it still has to fire */
    var nextHandle: nat
    var hostFrames: set<nat>

    ghost predicate Valid()
      reads this
    {
      && DistinctIds(renderers)
      && (forall i | 0 <= i < |renderers| :: renderers[i].id < nextId)
      && (forall i | 0 <= i < |renderers| :: renderers[i].ctx != null && renderers[i].canvas != null)
      && hostFrames == (if animationId.Some? then {animationId.value} else {})
      && (forall h | h in hostFrames :: h < nextHandle)
    }

    /** The loop needs a renderer and a frame scheduler, and either pause stops it. */
    predicate ShouldRun()
      reads this
      ensures ShouldRun() ==> |renderers| > 0 && hasFrameScheduler
      ensures pausedByVisibility || pausedByPreference ==> !ShouldRun()
    {
      |renderers| > 0 && !pausedByVisibility && !pausedByPreference && hasFrameScheduler
    }

    /** A frame is pending exactly when the loop should run. */
    ghost predicate Scheduled()
      reads this
    {
      animationId.Some? <==> ShouldRun()
    }

    /** Module load: the flags start from the page's hidden state and the reduced-motion
        query; nothing is registered, so no frame is requested. */
    constructor (hidden: bool, prefersReducedMotion: bool, hasFrameScheduler: bool)
      ensures Valid() && Scheduled()
      ensures this.hasFrameScheduler == hasFrameScheduler
      ensures renderers == [] && animationId == None && startTime == 0 && log == []
      ensures pausedByVisibility == hidden && pausedByPreference == prefersReducedMotion
    {
      this.hasFrameScheduler := hasFrameScheduler;
      renderers := [];
      animationId := None;
      startTime := 0;
      pausedByVisibility := hidden;
      pausedByPreference := prefersReducedMotion;
      log := [];
      nextId := 0;
      nextHandle := 1;
      hostFrames := {};
    }

    /** The frame callback, run by the host for the pending request. */
    method Tick(timestamp: int)
      requires Valid() && animationId.Some?
      modifies this`log, this`animationId, this`startTime, this`nextHandle, this`hostFrames
      ensures Valid() && Scheduled()
      ensures renderers == old(renderers) && nextId == old(nextId)
      ensures pausedByVisibility == old(pausedByVisibility)
      ensures pausedByPreference == old(pausedByPreference)
      ensures !ShouldRun() ==>
        && animationId == None && hostFrames == {} && nextHandle == old(nextHandle)
        && log == old(log) && startTime == old(startTime)
      ensures ShouldRun() ==>
        && startTime == Origin(old(startTime), timestamp)
        && log == old(log) + Frame(renderers, timestamp - startTime)
        && animationId == Some(old(nextHandle)) && hostFrames == {old(nextHandle)}
      ensures ShouldRun() ==>
        && |log| == |old(log)| + |renderers|
        && forall i | 0 <= i < |renderers| ::
          log[|old(log)| + i] == RenderCall(renderers[i].id, renderers[i].canvas.width,
                                            renderers[i].canvas.height, timestamp - startTime)
    {
      // the host has consumed the request it is now running
      hostFrames := hostFrames - {animationId.value};
      if !ShouldRun() {
        animationId := None;
        return;
      }

      RunFrame(timestamp);
      FrameExtendsLog(old(log), renderers, timestamp - startTime);
    }

    /** The running part of a tick: fix the elapsed-time origin, request the next frame,
        and render every entry at the elapsed time. */
    method RunFrame(timestamp: int)
      modifies this`log, this`startTime, this`animationId, this`hostFrames, this`nextHandle
      ensures startTime == Origin(old(startTime), timestamp)
      ensures log == old(log) + Frame(renderers, timestamp - startTime)
      ensures animationId == Some(old(nextHandle))
      ensures hostFrames == old(hostFrames) + {old(nextHandle)} && nextHandle == old(nextHandle) + 1
    {
      if startTime == 0 {
        startTime := timestamp;
      }
      var time := timestamp - startTime;

      // animationId = requestAnimationFrame(tick): the host hands out a fresh handle.
      // The source requests after rendering; the two commute here, since a render
      // call only records itself and can neither throw nor re-enter the animator.
      animationId := Some(nextHandle);
      hostFrames := hostFrames + {nextHandle};
      nextHandle := nextHandle + 1;

      var calls := RenderFrame(renderers, time);
      log := log + calls;
    }

    method StopLoop()
      requires Valid()
      modifies this`animationId, this`hostFrames
      ensures Valid()
      ensures animationId == None && hostFrames == {}
    {
      if animationId != None {
        // cancelAnimationFrame(animationId): the host forgets the request
        hostFrames := hostFrames - {animationId.value};
        animationId := None;
      }
    }

    /** Requests a frame only when none is pending and the loop should run; each such
        start resets the elapsed-time origin. */
    method StartLoop()
      requires Valid()
      modifies this`animationId, this`startTime, this`nextHandle, this`hostFrames
      ensures Valid()
      ensures old(animationId).None? && ShouldRun() ==>
        && startTime == 0 && animationId == Some(old(nextHandle))
        && hostFrames == {old(nextHandle)} && nextHandle == old(nextHandle) + 1
      ensures old(animationId).Some? || !ShouldRun() ==>
        && animationId == old(animationId) && startTime == old(startTime)
        && hostFrames == old(hostFrames) && nextHandle == old(nextHandle)
    {
      if animationId == None && ShouldRun() {
        startTime := 0;
        // animationId = requestAnimationFrame(tick)
        animationId := Some(nextHandle);
        hostFrames := hostFrames + {nextHandle};
        nextHandle := nextHandle + 1;
      }
    }

    /** Restores "a frame is pending iff the loop should run" after any change. */
    method RefreshLoop()
      requires Valid()
      modifies this`animationId, this`startTime, this`nextHandle, this`hostFrames
      ensures Valid() && Scheduled()
      ensures animationId.Some? <==>
        |renderers| > 0 && !pausedByVisibility && !pausedByPreference && hasFrameScheduler
      ensures old(Scheduled()) ==>
        && animationId == old(animationId) && startTime == old(startTime)
        && hostFrames == old(hostFrames) && nextHandle == old(nextHandle)
      ensures old(animationId).None? && ShouldRun() ==>
        startTime == 0 && animationId == Some(old(nextHandle))
      ensures old(animationId).Some? && ShouldRun() ==>
        && animationId == old(animationId) && startTime == old(startTime)
        && hostFrames == old(hostFrames) && nextHandle == old(nextHandle)
      ensures !ShouldRun() ==> hostFrames == {} && startTime == old(startTime)
    {
      if ShouldRun() {
        StartLoop();
      } else {
        StopLoop();
      }
    }

    /** registerRenderer: a missing context or canvas registers nothing and yields a
        disposer that does nothing. */
    method RegisterRenderer(ctx: Context?, canvas: Canvas?) returns (dispose: Disposer)
      requires Valid()
      modifies this`nextId, this`renderers, this`animationId, this`startTime, this`nextHandle, this`hostFrames
      ensures Valid() && (ctx != null && canvas != null ==> Scheduled())
      ensures old(Scheduled()) ==> Scheduled()
      ensures pausedByVisibility == old(pausedByVisibility)
      ensures pausedByPreference == old(pausedByPreference)
      ensures log == old(log)
      ensures ctx == null || canvas == null ==>
        && dispose == NoOp && renderers == old(renderers)
        && animationId == old(animationId) && startTime == old(startTime)
        && hostFrames == old(hostFrames)
        && nextId == old(nextId) && nextHandle == old(nextHandle)
      ensures ctx != null && canvas != null ==>
        && dispose == Unregister(old(nextId)) && !HasId(old(renderers), old(nextId))
        && renderers == old(renderers) + [Renderer(old(nextId), ctx, canvas)]
      ensures ctx != null && canvas != null && old(animationId).None? && ShouldRun() ==>
        startTime == 0 && animationId.Some?
      ensures old(Scheduled()) && old(animationId).Some? ==>
        animationId == old(animationId) && startTime == old(startTime)
    {
      if ctx == null || canvas == null {
        return NoOp;
      }
      var id := nextId;
      nextId := nextId + 1;
      renderers := renderers + [Renderer(id, ctx, canvas)];
      RefreshLoop();
      dispose := Unregister(id);
    }

    /** The disposer closure: deletes the renderer with this id from the set and
        refreshes the loop. */
    method RemoveRenderer(id: nat)
      requires Valid()
      modifies this`renderers, this`animationId, this`startTime, this`nextHandle, this`hostFrames
      ensures Valid() && Scheduled()
      ensures renderers == RemoveId(old(renderers), id) && !HasId(renderers, id)
      ensures old(animationId).Some? && ShouldRun() ==>
        && animationId == old(animationId) && startTime == old(startTime)
        && hostFrames == old(hostFrames)
      ensures !HasId(old(renderers), id) && old(Scheduled()) ==>
        && renderers == old(renderers) && animationId == old(animationId)
        && startTime == old(startTime) && hostFrames == old(hostFrames)
    {
      RemoveIdDistinct(renderers, id);
      if !HasId(renderers, id) {
        RemoveIdAbsent(renderers, id);
      }
      renderers := RemoveId(renderers, id);
      RefreshLoop();
    }

    /** Calls a disposer: Unregister removes exactly its own renderer and refreshes the
        loop; NoOp does nothing. */
    method Dispose(d: Disposer)
      requires Valid()
      modifies this`renderers, this`animationId, this`startTime, this`nextHandle, this`hostFrames
      ensures Valid()
      ensures d.NoOp? ==>
        && renderers == old(renderers) && animationId == old(animationId)
        && startTime == old(startTime) && hostFrames == old(hostFrames)
      ensures d.Unregister? ==>
        && Scheduled() && renderers == RemoveId(old(renderers), d.id)
        && !HasId(renderers, d.id)
      ensures d.Unregister? && old(animationId).Some? && ShouldRun() ==>
        && animationId == old(animationId) && startTime == old(startTime)
        && hostFrames == old(hostFrames)
      ensures d.Unregister? && !HasId(old(renderers), d.id) && old(Scheduled()) ==>
        && renderers == old(renderers) && animationId == old(animationId)
        && startTime == old(startTime) && hostFrames == old(hostFrames)
    {
      if d.Unregister? {
        RemoveRenderer(d.id);
      }
    }

    /** The visibilitychange listener. */
    method SetPausedByVisibility(hidden: bool)
      requires Valid()
      modifies this`pausedByVisibility, this`animationId, this`startTime, this`nextHandle, this`hostFrames
      ensures Valid() && Scheduled()
      ensures pausedByVisibility == hidden && pausedByPreference == old(pausedByPreference)
      ensures renderers == old(renderers) && log == old(log)
      ensures old(animationId).None? && ShouldRun() ==> startTime == 0 && animationId.Some?
      ensures old(Scheduled()) && hidden == old(pausedByVisibility) ==>
        animationId == old(animationId) && startTime == old(startTime)
    {
      pausedByVisibility := hidden;
      RefreshLoop();
    }

    /** The prefers-reduced-motion change listener. */
    method SetPausedByPreference(matches: bool)
      requires Valid()
      modifies this`pausedByPreference, this`animationId, this`startTime, this`nextHandle, this`hostFrames
      ensures Valid() && Scheduled()
      ensures pausedByPreference == matches && pausedByVisibility == old(pausedByVisibility)
      ensures renderers == old(renderers) && log == old(log)
      ensures old(animationId).None? && ShouldRun() ==> startTime == 0 && animationId.Some?
      ensures old(Scheduled()) && matches == old(pausedByPreference) ==>
        animationId == old(animationId) && startTime == old(startTime)
    {
      pausedByPreference := matches;
      RefreshLoop();
    }
  }

  /** One renderer on a 100x50 canvas: the first tick delivers time 0, the next the
      elapsed milliseconds. */
  method SingleRendererScenario()
  {
    var a := new Animator(false, false, true);
    var ctx := new Context();
    var canvas := new Canvas(100, 50);
    var d := a.RegisterRenderer(ctx, canvas);
    var id := d.id;
    var r := Renderer(id, ctx, canvas);
    assert a.renderers == [r] && a.animationId.Some?;
    a.Tick(1000);
    assert a.startTime == 1000 && a.renderers == [r];
    assert a.log == [RenderCall(id, 100, 50, 0)];
    ghost var before := a.log;
    a.Tick(1016);
    assert a.startTime == 1000 && a.renderers == [r];
    assert a.renderers[0].canvas.width == 100 && a.renderers[0].canvas.height == 50;
    // the second frame appends exactly one call and keeps the first
    assert |a.log| == 2 && a.log[0] == before[0];
    assert a.log[0] == RenderCall(id, 100, 50, 0) && a.log[1] == RenderCall(id, 100, 50, 16);
  }

  /** Sizes are read when a frame renders, not when the renderer registers: a canvas
      resized after registration is drawn at its new size. */
  method ResizeScenario()
  {
    var a := new Animator(false, false, true);
    var ctx := new Context();
    var canvas := new Canvas(100, 50);
    var d := a.RegisterRenderer(ctx, canvas);
    var r := Renderer(d.id, ctx, canvas);
    canvas.width, canvas.height := 200, 100;
    assert a.renderers == [r];
    a.Tick(1000);
    assert a.startTime == 1000 && a.renderers == [r];
    assert a.log == [] + Frame([r], 0);
    FrameOfOne(r, 0);
    assert a.log == [RenderCall(d.id, 200, 100, 0)];
  }

  /** Disposing the only renderer stops the loop; disposing it again changes nothing. */
  method DisposeScenario()
  {
    var a := new Animator(false, false, true);
    var ctx := new Context();
    var canvas := new Canvas(100, 50);
    var d := a.RegisterRenderer(ctx, canvas);
    assert a.animationId.Some?;
    a.Dispose(d);
    assert a.renderers == [] && a.animationId == None && a.hostFrames == {};
    a.Dispose(d);
    assert a.renderers == [] && a.animationId == None && a.log == [];
  }

  /** Two registrations get different ids in insertion order; a missing canvas or
      context registers nothing. */
  method RegisterScenario()
  {
    var a := new Animator(false, false, true);
    var ctx := new Context();
    var c1 := new Canvas(10, 10);
    var c2 := new Canvas(20, 20);
    var d1 := a.RegisterRenderer(ctx, c1);
    var d2 := a.RegisterRenderer(ctx, c1);
    assert a.renderers[0].id == d1.id && d1 != d2;
    var none := a.RegisterRenderer(null, c2);
    assert none == NoOp && |a.renderers| == 2;
  }

  /** Hiding the page stops the loop; showing it requests a frame with the elapsed-time
      origin reset, so the next tick delivers time 0. */
  method PauseScenario()
  {
    var a := new Animator(false, false, true);
    var ctx := new Context();
    var canvas := new Canvas(10, 10);
    var d := a.RegisterRenderer(ctx, canvas);
    var r := Renderer(d.id, ctx, canvas);
    a.Tick(500);
    a.SetPausedByVisibility(true);
    assert a.animationId == None;
    a.SetPausedByVisibility(false);
    assert a.animationId.Some? && a.startTime == 0 && a.renderers == [r];
  }
}
