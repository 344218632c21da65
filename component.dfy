/** The `App` component as an object: its refs are fields that the event
    handlers update in place, and the library objects `Render.create` and
    `Runner.create` return are objects whose fields `clearRenderer` writes.
    Each handler is proved to move the refs exactly as the matching
    function of module Controller says. */
module Component {
  import opened Base
  import opened Bodies
  import opened Arena
  import opened Boundary
  import opened Grain
  import Controller

  /** The render object: size, loop flag, `canvas`/`context` non-null, texture cache. */
  class RenderHandle {
    const width: nat
    const height: nat
    var running: bool
    var canvas: bool
    var context: bool
    var textures: set<string>

    /** `Render.create` on the host: a new canvas with its context, not yet drawing. */
    constructor (host: Host)
      ensures width == host.width && height == host.height
      ensures !running && canvas && context && textures == {}
    {
      width, height := host.width, host.height;
      running, canvas, context, textures := false, true, true, {};
    }
  }

  /** The runner object: whether it steps the engine. */
  class RunnerHandle {
    var running: bool

    /** `Runner.create`: a runner that is not yet stepping. */
    constructor ()
      ensures !running
    {
      running := false;
    }
  }

  class App {
    /** `canvas.current`: the host div. */
    const canvas: Option<Host>
    /** The host's `Math.cos`. */
    const cos: real -> real

    /** The engine world's body list. */
    var bodies: seq<Body>
    /** `render.current`, `runner.current`. */
    var render: RenderHandle?
    var runner: RunnerHandle?
    /** Loops started by `Engine.run`; nothing keeps or stops them. */
    var strayLoops: nat
    /** `colorCounter.current`, `mouseTimeoutRef.current`. */
    var colorCounter: int
    var mouseTimeout: Option<nat>
    /** The browser's scheduled intervals and the handle it issues next. */
    var activeTimers: set<nat>
    var nextTimer: nat
    /** `posX.current`, `posY.current`. */
    var posX: Option<real>
    var posY: Option<real>

    /** The refs and the library state as a value. */
    function Snapshot(): Controller.State
      reads this, render, runner
    {
      Controller.State(
        canvas, bodies,
        if render == null then None
        else Some(Controller.Render(render.width, render.height, render.running,
                                    render.canvas, render.context, render.textures)),
        if runner == null then None else Some(Controller.Runner(runner.running)),
        strayLoops, colorCounter, mouseTimeout, activeTimers, nextTimer, posX, posY)
    }

    ghost predicate Valid()
      reads this, render, runner
    {
      Controller.Valid(Snapshot())
    }

    /** The refs' initial values when the component is created. */
    constructor (canvas: Option<Host>, cos: real -> real)
      ensures Valid() && Snapshot() == Controller.Mounted(canvas) && this.cos == cos
    {
      this.canvas, this.cos := canvas, cos;
      bodies, render, runner, strayLoops := [], null, null, 0;
      colorCounter, mouseTimeout, activeTimers, nextTimer := 0, None, {}, 1;
      posX, posY := None, None;
    }

    /** `initializeRenderer`. */
    method InitializeRenderer()
      requires Valid()
      modifies this
      ensures Valid() && Snapshot() == Controller.Initialize(old(Snapshot()))
      ensures canvas.Some? ==> fresh(render) && fresh(runner)
      ensures canvas.None? ==> render == old(render) && runner == old(runner)
    {
      if canvas.None? {
        return;
      }
      var host := canvas.value;
      render := new RenderHandle(host);
      bodies := bodies + Boundaries(host.width, host.height);  // World.add
      strayLoops := strayLoops + 1;                            // Engine.run
      render.running := true;                                  // Render.run
      runner := new RunnerHandle();
      runner.running := true;                                  // Runner.run
    }

    /** `clearRenderer`; `threw` says it stopped with a TypeError at
        `render.current.canvas.remove()`. */
    method ClearRenderer() returns (threw: bool)
      requires Valid()
      modifies this, render, runner
      ensures Valid() && Snapshot() == Controller.Clear(old(Snapshot()))
      ensures threw == Controller.ClearThrows(old(Snapshot()))
      ensures render == old(render) && runner == old(runner)
    {
      threw := false;
      if render == null {
        return;
      }
      render.running := false;   // Render.stop
      runner.running := false;   // Runner.stop
      bodies := [];              // World.clear; Engine.clear holds nothing modelled here
      if !render.canvas {
        threw := true;           // canvas is null: `.remove()` throws
        return;
      }
      render.canvas := false;
      render.context := false;
      render.textures := {};
    }

    /** `handleMouseDown`. */
    method HandleMouseDown()
      requires Valid()
      modifies this
      ensures Valid() && Snapshot() == Controller.MouseDown(old(Snapshot()))
      ensures render == old(render) && runner == old(runner)
    {
      colorCounter := 0;
      var handle := nextTimer;   // setInterval
      activeTimers := activeTimers + {handle};
      nextTimer := nextTimer + 1;
      mouseTimeout := Some(handle);
    }

    /** `addGrain`. */
    method AddGrain(r: real)
      modifies this`bodies
      ensures bodies == old(bodies) + [GrainAt(ToNumber(posX), ToNumber(posY), r, colorCounter, cos)]
    {
      bodies := bodies + [GrainAt(ToNumber(posX), ToNumber(posY), r, colorCounter, cos)];
    }

    /** The callback of interval `id`, with `r` the value `Math.random()` returns. */
    method IntervalTick(id: nat, r: real)
      requires Valid() && id in activeTimers
      modifies this
      ensures Valid() && Snapshot() == Controller.Tick(old(Snapshot()), id, r, cos)
      ensures render == old(render) && runner == old(runner)
    {
      AddGrain(r);
      colorCounter := colorCounter + 1;
    }

    /** `handleMouseUp`. */
    method HandleMouseUp()
      requires Valid()
      modifies this
      ensures Valid() && Snapshot() == Controller.MouseUp(old(Snapshot()))
      ensures render == old(render) && runner == old(runner)
    {
      if mouseTimeout.Some? {
        activeTimers := activeTimers - {mouseTimeout.value};   // clearInterval
      }
    }

    /** `updateMousePosition` for an event at client coordinates (clientX, clientY). */
    method UpdateMousePosition(clientX: real, clientY: real)
      requires Valid()
      modifies this
      ensures Valid() && Snapshot() == Controller.MouseMove(old(Snapshot()), clientX, clientY)
      ensures render == old(render) && runner == old(runner)
    {
      if canvas.None? {
        return;
      }
      posX := Some(clientX - canvas.value.left);
      posY := Some(clientY - canvas.value.top);
    }

    /** The "Clear Canvas" button's click handler. */
    method ClearCanvas()
      requires Valid()
      modifies this, render, runner
      ensures Valid() && Snapshot() == Controller.Reset(old(Snapshot()))
    {
      var threw := ClearRenderer();
      if threw {
        return;
      }
      InitializeRenderer();
    }
  }

  /** A usage scenario, not a function of the component: mount, a move, a
      press with two ticks, a release and a reset, showing what a caller can
      conclude from the handlers' specifications alone. */
  method Session(host: Host, cos: real -> real, x: real, y: real)
  {
    var app := new App(Some(host), cos);
    app.InitializeRenderer();
    assert |app.bodies| == 4;
    app.UpdateMousePosition(host.left + x, host.top + y);
    app.HandleMouseDown();
    var id := app.mouseTimeout.value;
    app.IntervalTick(id, 0.0);
    app.IntervalTick(id, 0.5);
    assert app.bodies[4] == GrainAt(x, y, 0.0, 0, cos) && app.bodies[5].shape.radius == 9.0;
    assert app.colorCounter == 2;
    app.HandleMouseUp();
    assert id !in app.activeTimers;
    app.ClearCanvas();
    assert app.bodies == Boundaries(host.width, host.height);
  }
}
