/** The component's refs and the library state they drive, as a value, and
    one function per handler giving the state after it runs. The class
    `Component.App` is proved against these functions; the lemmas below
    state what sequences of handlers do. */
module Controller {
  import opened Base
  import opened Bodies
  import opened Arena
  import opened Boundary
  import opened Grain

  /** `render.current`: the render's size, whether its loop runs, whether
      its `canvas` and `context` fields are non-null, and its texture cache. */
  datatype Render = Render(width: nat, height: nat, running: bool,
                           canvas: bool, context: bool, textures: set<string>)

  /** `runner.current`: whether the runner is stepping the engine. */
  datatype Runner = Runner(running: bool)

  /** canvas:       `canvas.current`, the host div (null before React attaches it)
      bodies:       the engine world's body list, in insertion order
      render:       `render.current`
      runner:       `runner.current`
      strayLoops:   loops started by `Engine.run`, which no ref keeps
      colorCounter: `colorCounter.current`
      mouseTimeout: `mouseTimeoutRef.current`, the last interval handle stored
      activeTimers: the browser's intervals that are still scheduled
      nextTimer:    the handle `setInterval` returns next
      posX, posY:   `posX.current`, `posY.current` */
  datatype State = State(
    canvas: Option<Host>,
    bodies: seq<Body>,
    render: Option<Render>,
    runner: Option<Runner>,
    strayLoops: nat,
    colorCounter: int,
    mouseTimeout: Option<nat>,
    activeTimers: set<nat>,
    nextTimer: nat,
    posX: Option<real>,
    posY: Option<real>)

  /** The refs' initial values, with an empty world and no interval scheduled. */
  function Mounted(canvas: Option<Host>): (s: State)
    ensures Valid(s) && !Live(s)
    ensures s.posX.None? && s.posY.None? && s.colorCounter == 0 && s.bodies == []
    ensures s.render.None? && s.mouseTimeout.None? && s.activeTimers == {}
  {
    State(canvas, [], None, None, 0, 0, None, {}, 1, None, None)
  }

  /** Interval handles are positive and issued in increasing order; a render
      always comes with a runner. */
  ghost predicate Valid(s: State)
  {
    && 0 < s.nextTimer
    && (forall id :: id in s.activeTimers ==> 0 < id < s.nextTimer)
    && (s.mouseTimeout.Some? ==> 0 < s.mouseTimeout.value < s.nextTimer)
    && (s.render.Some? ==> s.runner.Some?)
  }

  /** A world is live: a render is drawing to its canvas and the runner steps the engine. */
  predicate Live(s: State)
  {
    && s.render.Some? && s.render.value.running && s.render.value.canvas
    && s.render.value.context && s.runner == Some(Runner(true))
  }

  /** The fresh render `Render.create` makes for the host, after `Render.run`. */
  function FreshRender(host: Host): Render
  {
    Render(host.width, host.height, true, true, true, {})
  }

  /** `initializeRenderer`. */
  function Initialize(s: State): (t: State)
    ensures s.canvas.None? ==> t == s
    ensures s.canvas.Some? ==>
              && Live(t)
              && t.bodies == s.bodies + Boundaries(s.canvas.value.width, s.canvas.value.height)
              && t.render == Some(FreshRender(s.canvas.value))
              && t.strayLoops == s.strayLoops + 1
    ensures t.canvas == s.canvas && t.colorCounter == s.colorCounter
    ensures t.mouseTimeout == s.mouseTimeout && t.activeTimers == s.activeTimers
    ensures t.nextTimer == s.nextTimer && t.posX == s.posX && t.posY == s.posY
  {
    match s.canvas
    case None => s
    case Some(host) =>
      s.(render := Some(FreshRender(host)),
         bodies := s.bodies + Boundaries(host.width, host.height),
         strayLoops := s.strayLoops + 1,
         runner := Some(Runner(true)))
  }

  /** `clearRenderer` throws at `render.current.canvas.remove()` when a
      previous call has already set `canvas` to null. */
  predicate ClearThrows(s: State): (b: bool)
    ensures b ==> s.render.Some? && !Live(s)
    ensures s.render.None? || Live(s) ==> !b
  {
    s.render.Some? && !s.render.value.canvas
  }

  /** `clearRenderer`: the state it leaves, whether or not it throws. */
  function Clear(s: State): (t: State)
    ensures s.render.None? ==> t == s
    ensures s.render.Some? ==>
              && !Live(t) && t.bodies == []
              && t.render.Some? && !t.render.value.running
              && !t.render.value.canvas
              && (t.runner.Some? ==> !t.runner.value.running)
    ensures !ClearThrows(s) && s.render.Some? ==>
              !t.render.value.context && t.render.value.textures == {}
    ensures ClearThrows(s) ==> t.render == Some(s.render.value.(running := false))
    ensures t.canvas == s.canvas && t.colorCounter == s.colorCounter
    ensures t.mouseTimeout == s.mouseTimeout && t.activeTimers == s.activeTimers
    ensures t.nextTimer == s.nextTimer && t.posX == s.posX && t.posY == s.posY
    ensures t.strayLoops == s.strayLoops
  {
    match s.render
    case None => s
    case Some(r) =>
      var stopped := s.(render := Some(r.(running := false)),
                        runner := if s.runner.Some? then Some(Runner(false)) else None,
                        bodies := []);
      if !r.canvas then stopped
      else stopped.(render := Some(r.(running := false, canvas := false, context := false,
                                      textures := {})))
  }

  /** `handleMouseDown`: reset the counter and schedule a new interval,
      storing its handle over the previous one. */
  function MouseDown(s: State): (t: State)
    ensures t.colorCounter == 0
    ensures t.mouseTimeout == Some(s.nextTimer) && t.nextTimer == s.nextTimer + 1
    ensures t.activeTimers == s.activeTimers + {s.nextTimer}
    ensures t.canvas == s.canvas && t.bodies == s.bodies && t.render == s.render
    ensures t.runner == s.runner && t.strayLoops == s.strayLoops
    ensures t.posX == s.posX && t.posY == s.posY
  {
    s.(colorCounter := 0,
       mouseTimeout := Some(s.nextTimer),
       activeTimers := s.activeTimers + {s.nextTimer},
       nextTimer := s.nextTimer + 1)
  }

  /** One run of the interval callback: `addGrain()` at the stored pointer
      position with the current counter, then `colorCounter++`. */
  function Tick(s: State, id: nat, r: real, cos: real -> real): (t: State)
    requires id in s.activeTimers
    ensures |t.bodies| == |s.bodies| + 1 && t.bodies[..|s.bodies|] == s.bodies
    ensures t.bodies[|s.bodies|] == GrainAt(ToNumber(s.posX), ToNumber(s.posY), r, s.colorCounter, cos)
    ensures t.colorCounter == s.colorCounter + 1
    ensures t.canvas == s.canvas && t.render == s.render && t.runner == s.runner
    ensures t.strayLoops == s.strayLoops && t.mouseTimeout == s.mouseTimeout
    ensures t.activeTimers == s.activeTimers && t.nextTimer == s.nextTimer
    ensures t.posX == s.posX && t.posY == s.posY
  {
    var grain := GrainAt(ToNumber(s.posX), ToNumber(s.posY), r, s.colorCounter, cos);
    s.(bodies := s.bodies + [grain], colorCounter := s.colorCounter + 1)
  }

  /** `handleMouseUp`: cancel the stored interval, if a handle is stored. */
  function MouseUp(s: State): (t: State)
    ensures s.mouseTimeout.None? ==> t == s
    ensures s.mouseTimeout.Some? ==> t.activeTimers == s.activeTimers - {s.mouseTimeout.value}
    ensures t.activeTimers <= s.activeTimers
    ensures t.mouseTimeout == s.mouseTimeout && t.colorCounter == s.colorCounter
    ensures t.bodies == s.bodies && t.posX == s.posX && t.posY == s.posY
    ensures t.canvas == s.canvas && t.render == s.render && t.runner == s.runner
    ensures t.strayLoops == s.strayLoops && t.nextTimer == s.nextTimer
  {
    match s.mouseTimeout
    case None => s
    case Some(handle) => s.(activeTimers := s.activeTimers - {handle})
  }

  /** `updateMousePosition`: store the event's position relative to the host. */
  function MouseMove(s: State, clientX: real, clientY: real): (t: State)
    ensures s.canvas.None? ==> t == s
    ensures s.canvas.Some? ==>
              && t.posX == Some(clientX - s.canvas.value.left)
              && t.posY == Some(clientY - s.canvas.value.top)
              && ToClient(s.canvas.value, Point(t.posX.value, t.posY.value)) == Point(clientX, clientY)
    ensures t.canvas == s.canvas && t.bodies == s.bodies && t.render == s.render
    ensures t.runner == s.runner && t.strayLoops == s.strayLoops
    ensures t.colorCounter == s.colorCounter && t.mouseTimeout == s.mouseTimeout
    ensures t.activeTimers == s.activeTimers && t.nextTimer == s.nextTimer
  {
    match s.canvas
    case None => s
    case Some(host) =>
      var p := ToLocal(host, clientX, clientY);
      s.(posX := Some(p.x), posY := Some(p.y))
  }

  /** The "Clear Canvas" button: `clearRenderer()` then `initializeRenderer()`;
      when `clearRenderer` throws, the handler stops there. */
  function Reset(s: State): (t: State)
    ensures ClearThrows(s) ==> t == Clear(s) && !Live(t) && t.bodies == []
    ensures !ClearThrows(s) ==> t == Initialize(Clear(s))
    ensures s.canvas.Some? && !ClearThrows(s) ==>
              && Live(t)
              && t.bodies == (if s.render.None? then s.bodies else [])
                             + Boundaries(s.canvas.value.width, s.canvas.value.height)
    ensures t.canvas == s.canvas && t.colorCounter == s.colorCounter
    ensures t.mouseTimeout == s.mouseTimeout && t.activeTimers == s.activeTimers
    ensures t.nextTimer == s.nextTimer && t.posX == s.posX && t.posY == s.posY
  {
    if ClearThrows(s) then Clear(s) else Initialize(Clear(s))
  }

  /** `n` runs of interval `id`, with the random draws `rs`. */
  function Ticks(s: State, id: nat, rs: seq<real>, cos: real -> real): State
    requires id in s.activeTimers
    decreases |rs|
  {
    if rs == [] then s else Ticks(Tick(s, id, rs[0], cos), id, rs[1..], cos)
  }

  /** The grains a run of ticks appends, the first one with counter `k0`. */
  function Grains(x: real, y: real, rs: seq<real>, k0: int, cos: real -> real): (gs: seq<Body>)
    ensures |gs| == |rs|
  {
    seq(|rs|, i requires 0 <= i < |rs| => GrainAt(x, y, rs[i], k0 + i, cos))
  }

  /** What happens between two ticks of one interval during a drag: a
      `mousemove` at client coordinates, or a run of the interval callback
      with the random draw `r`. */
  datatype Event = Move(clientX: real, clientY: real) | Fire(r: real)

  /** One event: `updateMousePosition` or the callback of interval `id`. */
  function Apply(s: State, id: nat, e: Event, cos: real -> real): (t: State)
    requires id in s.activeTimers
    ensures t.activeTimers == s.activeTimers && t.canvas == s.canvas
    ensures |t.bodies| >= |s.bodies| && t.bodies[..|s.bodies|] == s.bodies
  {
    match e
    case Move(cx, cy) => MouseMove(s, cx, cy)
    case Fire(r) => Tick(s, id, r, cos)
  }

  /** The events `evs`, in order, while interval `id` stays scheduled. */
  function Run(s: State, id: nat, evs: seq<Event>, cos: real -> real): (t: State)
    requires id in s.activeTimers
    ensures t.activeTimers == s.activeTimers && t.canvas == s.canvas
    ensures |t.bodies| >= |s.bodies| && t.bodies[..|s.bodies|] == s.bodies
    decreases |evs|
  {
    if evs == [] then s
    else Apply(Run(s, id, evs[..|evs| - 1], cos), id, evs[|evs| - 1], cos)
  }

  /** How many ticks `evs` holds. */
  function FireCount(evs: seq<Event>): nat
    decreases |evs|
  {
    if evs == [] then 0
    else FireCount(evs[..|evs| - 1]) + (if evs[|evs| - 1].Fire? then 1 else 0)
  }

  /** The client coordinates of the last `mousemove` in `evs`, if any. */
  function LastMove(evs: seq<Event>): Option<Point>
    decreases |evs|
  {
    if evs == [] then None
    else if evs[|evs| - 1].Move? then Some(Point(evs[|evs| - 1].clientX, evs[|evs| - 1].clientY))
    else LastMove(evs[..|evs| - 1])
  }

  /** The stored pointer position after `evs`: the last move's, made local,
      or the one before them when there is no move (or no div). */
  function PointerAfter(s: State, evs: seq<Event>): (Option<real>, Option<real>)
  {
    match (s.canvas, LastMove(evs))
    case (Some(host), Some(p)) => (Some(ToLocal(host, p.x, p.y).x), Some(ToLocal(host, p.x, p.y).y))
    case _ => (s.posX, s.posY)
  }

  // ---------------------------------------------------------------------
  // Invariant

  /** Every handler keeps the state valid. */
  lemma StepsPreserveValid(s: State, id: nat, r: real, cos: real -> real, clientX: real, clientY: real)
    requires Valid(s)
    ensures Valid(Initialize(s)) && Valid(Clear(s)) && Valid(MouseDown(s))
    ensures Valid(MouseUp(s)) && Valid(MouseMove(s, clientX, clientY)) && Valid(Reset(s))
    ensures id in s.activeTimers ==> Valid(Tick(s, id, r, cos))
  {
  }

  // ---------------------------------------------------------------------
  // Emission sessions

  /** The grains of a non-empty run: the first one, then those of the rest. */
  lemma GrainsCons(x: real, y: real, rs: seq<real>, k0: int, cos: real -> real)
    requires rs != []
    ensures Grains(x, y, rs, k0, cos) == [GrainAt(x, y, rs[0], k0, cos)] + Grains(x, y, rs[1..], k0 + 1, cos)
  {
    var all, tail := Grains(x, y, rs, k0, cos), Grains(x, y, rs[1..], k0 + 1, cos);
    forall i | 0 <= i < |rs| ensures all[i] == ([all[0]] + tail)[i] {
      if i > 0 {
        assert tail[i - 1] == GrainAt(x, y, rs[1..][i - 1], k0 + 1 + (i - 1), cos);
      }
    }
  }

  /** A run of ticks appends one grain per tick, the i-th with counter
      `colorCounter + i`, and changes nothing but the bodies and the counter. */
  lemma {:induction false} TicksAppendGrains(s: State, id: nat, rs: seq<real>, cos: real -> real)
    requires id in s.activeTimers
    ensures var t := Ticks(s, id, rs, cos);
            && t.bodies == s.bodies + Grains(ToNumber(s.posX), ToNumber(s.posY), rs, s.colorCounter, cos)
            && t.colorCounter == s.colorCounter + |rs|
            && t == s.(bodies := t.bodies, colorCounter := t.colorCounter)
    decreases |rs|
  {
    if rs != [] {
      var s1 := Tick(s, id, rs[0], cos);
      TicksAppendGrains(s1, id, rs[1..], cos);
      var x, y := ToNumber(s.posX), ToNumber(s.posY);
      GrainsCons(x, y, rs, s.colorCounter, cos);
      assert s1.bodies == s.bodies + [GrainAt(x, y, rs[0], s.colorCounter, cos)];
    }
  }

  /** A press held still: after `handleMouseDown`, with no pointer move
      between the ticks of the interval it scheduled, the k-th tick (from 0) emits the grain for
      counter value k at the stored pointer position; after n ticks the
      counter is n. The colour of each grain is therefore `Colour(cos, k)`. */
  lemma SessionEmitsInOrder(s: State, rs: seq<real>, cos: real -> real)
    ensures s.nextTimer in MouseDown(s).activeTimers
    ensures var t := Ticks(MouseDown(s), s.nextTimer, rs, cos);
            && t.colorCounter == |rs|
            && |t.bodies| == |s.bodies| + |rs|
            && t.bodies[..|s.bodies|] == s.bodies
            && forall k :: 0 <= k < |rs| ==>
                 && t.bodies[|s.bodies| + k] == GrainAt(ToNumber(s.posX), ToNumber(s.posY), rs[k], k, cos)
                 && t.bodies[|s.bodies| + k].style.fill == Colour(cos, k)
  {
    var d := MouseDown(s);
    TicksAppendGrains(d, s.nextTimer, rs, cos);
  }

  /** Running events one by one: each tick raises the counter by one and
      appends one body, and the stored position is the last move's. */
  lemma {:induction false} RunCounts(s: State, id: nat, evs: seq<Event>, cos: real -> real)
    requires id in s.activeTimers
    ensures var t := Run(s, id, evs, cos);
            && t.colorCounter == s.colorCounter + FireCount(evs)
            && |t.bodies| == |s.bodies| + FireCount(evs)
            && (t.posX, t.posY) == PointerAfter(s, evs)
    decreases |evs|
  {
    if evs != [] {
      RunCounts(s, id, evs[..|evs| - 1], cos);
    }
  }

  /** The state after a prefix of the events is the state the later events start from. */
  lemma {:induction false} RunPrefix(s: State, id: nat, evs: seq<Event>, j: nat, cos: real -> real)
    requires id in s.activeTimers && j <= |evs|
    ensures var t, u := Run(s, id, evs, cos), Run(s, id, evs[..j], cos);
            |u.bodies| <= |t.bodies| && t.bodies[..|u.bodies|] == u.bodies
    decreases |evs| - j
  {
    if j < |evs| {
      var evs' := evs[..|evs| - 1];
      assert evs'[..j] == evs[..j];
      RunPrefix(s, id, evs', j, cos);
      var m, u := Run(s, id, evs', cos), Run(s, id, evs[..j], cos);
      var t := Apply(m, id, evs[|evs| - 1], cos);
      assert t == Run(s, id, evs, cos);
      assert t.bodies[..|u.bodies|] == t.bodies[..|m.bodies|][..|u.bodies|];
    } else {
      assert evs[..j] == evs;
    }
  }

  /** A drag session: after `handleMouseDown`, with pointer moves between
      the ticks of the interval it scheduled, the tick at position i of the
      events emits the grain for counter k = the number of ticks before it,
      hence colour `Colour(cos, k)`, at the position of the latest move
      before it; at the end the counter is the number of ticks. */
  lemma DragSessionEmitsInOrder(s: State, evs: seq<Event>, i: nat, cos: real -> real)
    requires i < |evs| && evs[i].Fire?
    ensures s.nextTimer in MouseDown(s).activeTimers
    ensures var d := MouseDown(s);
            var t := Run(d, s.nextTimer, evs, cos);
            var k := FireCount(evs[..i]);
            var pos := PointerAfter(s, evs[..i]);
            && t.colorCounter == FireCount(evs)
            && |t.bodies| == |s.bodies| + FireCount(evs)
            && |s.bodies| + k < |t.bodies|
            && t.bodies[|s.bodies| + k] == GrainAt(ToNumber(pos.0), ToNumber(pos.1), evs[i].r, k, cos)
            && t.bodies[|s.bodies| + k].style.fill == Colour(cos, k)
  {
    var d, id := MouseDown(s), s.nextTimer;
    var pre := evs[..i];
    assert evs[..i + 1][..i] == pre;
    RunCounts(d, id, evs, cos);
    RunCounts(d, id, pre, cos);
    RunPrefix(d, id, evs, i + 1, cos);
    var u := Run(d, id, evs[..i + 1], cos);
    assert u == Tick(Run(d, id, pre, cos), id, evs[i].r, cos);
  }

  /** Before the pointer has moved, a tick still emits a grain, and it sits
      at the arena's top-left corner: `addGrain` does not check for null. */
  lemma TickWithoutPositionEmitsAtOrigin(s: State, id: nat, r: real, cos: real -> real)
    requires id in s.activeTimers && s.posX.None? && s.posY.None?
    ensures var t := Tick(s, id, r, cos);
            |t.bodies| == |s.bodies| + 1 && t.bodies[|s.bodies|].x == 0.0 && t.bodies[|s.bodies|].y == 0.0
  {
  }

  // ---------------------------------------------------------------------
  // Intervals

  /** A press and a release with nothing in between leave the same intervals scheduled. */
  lemma PressReleaseRestoresTimers(s: State)
    requires Valid(s)
    ensures MouseUp(MouseDown(s)).activeTimers == s.activeTimers
  {
    assert s.nextTimer !in s.activeTimers;
  }

  /** Two presses before a release: the handle of the first interval is
      overwritten, the release cancels only the second, and the first keeps
      running with nothing left that could cancel it. */
  lemma SecondPressLeaksInterval(s: State)
    requires Valid(s)
    ensures var t := MouseUp(MouseDown(MouseDown(s)));
            && s.nextTimer in t.activeTimers
            && t.activeTimers == s.activeTimers + {s.nextTimer}
            && t.mouseTimeout == Some(s.nextTimer + 1)
  {
    assert s.nextTimer + 1 !in s.activeTimers;
  }

  /** A release with no interval ever scheduled changes nothing. */
  lemma ReleaseWithoutPressIsNoOp(canvas: Option<Host>)
    ensures MouseUp(Mounted(canvas)) == Mounted(canvas)
  {
  }

  // ---------------------------------------------------------------------
  // Lifecycle

  /** On the host, `initializeRenderer` from the initial state yields a
      live world holding exactly the four boundaries, whatever the size. */
  lemma MountBuildsBoundaries(host: Host)
    ensures var t := Initialize(Mounted(Some(host)));
            Live(t) && t.bodies == Boundaries(host.width, host.height) && |t.bodies| == 4
  {
  }

  /** `clearRenderer` before any render exists changes nothing. */
  lemma ClearBeforeInitializeIsNoOp(s: State)
    requires s.render.None?
    ensures Clear(s) == s && !ClearThrows(s)
  {
  }

  /** `clearRenderer` is not idempotent: the guard only checks that a render
      was ever created, so a second call gets past it and throws. */
  lemma SecondClearThrows(s: State)
    requires s.render.Some?
    ensures ClearThrows(Clear(s))
    ensures Clear(Clear(s)) == Clear(s)
  {
  }

  /** Teardown does not cancel the emission interval: a tick after
      `clearRenderer` still adds a grain to the (emptied) world. */
  lemma TickAfterClearAddsGrain(s: State, id: nat, r: real, cos: real -> real)
    requires id in s.activeTimers && s.render.Some?
    ensures id in Clear(s).activeTimers
    ensures var t := Tick(Clear(s), id, r, cos);
            !Live(t) && |t.bodies| == 1 && !t.bodies[0].isStatic
  {
  }

  /** "Clear Canvas" on a live world leaves exactly the boundaries of a
      fresh world of the host's current size, and a live world. */
  lemma ResetRebuildsBoundaries(s: State)
    requires s.canvas.Some? && Live(s)
    ensures var t := Reset(s);
            && Live(t)
            && t.bodies == Initialize(Mounted(s.canvas)).bodies
            && t.render == Some(FreshRender(s.canvas.value))
            && t.colorCounter == s.colorCounter && t.activeTimers == s.activeTimers
            && t.posX == s.posX && t.posY == s.posY
  {
  }

  /** "Clear Canvas" after a bare `clearRenderer` does not rebuild: the
      inner `clearRenderer` throws before `initializeRenderer` runs. */
  lemma ResetAfterClearLeavesNoWorld(s: State)
    requires s.render.Some?
    ensures !Live(Reset(Clear(s))) && Reset(Clear(s)).bodies == []
  {
  }

  /** Every reset starts one more `Engine.run` loop that nothing stops. */
  lemma ResetStartsStrayLoop(s: State)
    requires s.canvas.Some? && !ClearThrows(s)
    ensures Reset(s).strayLoops == s.strayLoops + 1
  {
  }
}
