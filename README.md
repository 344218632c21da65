# Grain sandbox controller — a Dafny model

This project models the logic of `src/App.tsx`, the React component of a small
Matter.js sand-pile demo. The component keeps a few refs. It builds a static
arena of floor, walls and ramp sized to its host `div`. It tracks the pointer
in the div's coordinates. While the mouse button is held, a 20 ms interval
drops coloured circular grains at the pointer. A "Clear Canvas" button tears
the world down and rebuilds it.

The model has three layers:

- **Pure pieces.** `Boundary.Boundaries` is the arena layout. `Grain.GrainAt`
  builds one grain from the pointer, the random draw and the colour counter.
  `Arena.ToLocal` maps client coordinates into the div. Geometry uses reals,
  with y growing downwards. The layout reads the third and fourth arguments of
  `Bodies.rectangle` as width and height. The comment at `src/App.tsx:38` says
  "height, width", but only width-then-height makes the floor and walls fit
  the arena, and that is also Matter's own order.
- **The handlers as state transitions.** `Controller.State` holds every ref
  and the library state the refs drive: the world's body list, the render and
  runner objects, the browser's active intervals. There is one function per
  handler, and lemmas cover sequences of handlers.
- **The component as an object.** In `Component.App`, each ref is a field.
  Each handler is a method that updates the fields in place. Each method is
  proved to move `Snapshot()` exactly as the matching `Controller` function
  says. The render object (`Component.RenderHandle`) is an object of its own,
  because `clearRenderer` writes its fields.

Where a general description of such a component promises more, the model
follows what the code does:

- `clearRenderer` never resets `render.current`. A second call gets past the
  guard, stops the loops, empties the world again, and then throws a TypeError
  at `render.current.canvas.remove()` because `canvas` is already null. So a
  "Clear Canvas" click after a bare teardown never reaches
  `initializeRenderer`. This is a fact about the handlers taken on their own,
  not a path a user can reach. A bare `clearRenderer` runs only in the
  `useEffect` cleanup (`src/App.tsx:123-126`). That happens on unmount, when
  the button is gone, or in a development double mount, which initializes
  again at once.
- `clearRenderer` does not cancel the emission interval. Ticks after teardown
  still add grains to the emptied world.
- `handleMouseDown` overwrites the stored interval handle without cancelling
  the old interval. After two presses, the first interval can no longer be
  cancelled.
- `addGrain` does not check for a null position. Matter's arithmetic reads
  `null` as 0, so a grain emitted before the first pointer move sits at the
  arena's top-left corner (`Base.ToNumber`).
- `initializeRenderer` only checks that the div exists. A 0 x 0 div still gets
  the four boundaries.
- Each `initializeRenderer` calls `Engine.run`, which starts a stepping loop
  that no ref keeps. `clearRenderer` only stops `runner.current`, so these
  loops accumulate (`strayLoops`). This reads `Engine.run` as Matter's alias
  of `Runner.run` on a new runner.

Inputs the code takes from the host are parameters:

- the div's measured size and its client-rectangle corner (`Arena.Host`);
- `Math.random()`, the parameter `r` of each tick;
- `Math.cos`, the constant `cos` of the component. It is assumed bounded
  (`CosBounded`) or periodic (`CosPeriodic`) only where a lemma says so.
- `Math.PI` is the decimal `Base.Pi`.

## Model

| member | source | states |
|---|---|---|
| Boundary.Boundaries | src/App.tsx:38-55 | four static bodies: the floor's top edge is at y = h and it spans x in [0, w]; the right wall's inner edge is at x = w and the left wall's at x = 0; both walls span y in [0, h]; floor and walls have friction 10; the ramp is centred at (0.4w, 0.5h), is 0.3w x 20, has angle 40 degrees and chamfer 0.5, and its centre is inside the arena when w, h > 0 |
| Grain.Radius | src/App.tsx:96 | for a random draw r in [0, 1) the radius is in [5, 13) |
| Grain.Channel | src/App.tsx:102-103 | with a cosine bounded by 1, each channel 150 + 50cos(...) lies in [100, 200] |
| Grain.Colour | src/App.tsx:102-103 | blue is always 150, red and green lie in [100, 200], and when cos(0) = 1 the first grain (k = 0) is rgb(200, 200, 150) |
| Grain.GrainAt | src/App.tsx:94-106 | a dynamic circle at the given position with radius in [5, 13), friction 10, restitution 0.01, density 0.001, stroke #444444 of width 1 and the counter's colour |
| Grain.StyleDependsOnlyOnCounter | src/App.tsx:96-106 | two grains with the same counter have the same colour and material, whatever their position and random draw |
| Grain.ColourCycle | src/App.tsx:102-103 | with a 2-pi-periodic cosine, grain k + 100 has the same colour as grain k |
| Arena.ToLocal | src/App.tsx:111-115 | the stored local point maps back to the event's client point, and it is the origin exactly when the event is at the div's corner |
| Arena.InsideHost | src/App.tsx:113-114 | an event inside the div's box gives a local point inside [0, w] x [0, h] |
| Arena.TranslationInvariant | src/App.tsx:113-114 | shifting the div and the event by the same offset leaves the local point unchanged |
| Controller.Mounted | src/App.tsx:7-16 | the refs start with null positions, counter 0, no stored handle, no scheduled interval, no render and an empty world, and the state is valid |
| Controller.Initialize | src/App.tsx:18-63 | without a div nothing changes; otherwise the world gains exactly the four boundaries, a fresh render of the div's size is live, one more stray loop runs, and counter, timers and positions are unchanged |
| Controller.Clear | src/App.tsx:65-76 | with no render ever created nothing changes; otherwise the world is emptied, render and runner are stopped, canvas is null, and when the call does not throw, context is null and textures are empty; timers, counter and positions are unchanged |
| Controller.MouseDown | src/App.tsx:78-86 | counter reset to 0; a new interval handle is stored and scheduled, and older intervals stay scheduled |
| Controller.Tick | src/App.tsx:82-85 | one tick appends exactly one grain, built from the stored position and the current counter, keeps the earlier bodies, increments the counter and changes nothing else |
| Controller.MouseUp | src/App.tsx:88-90 | with no stored handle nothing changes; otherwise only the stored interval is cancelled; counter, positions, handle and bodies are unchanged |
| Controller.ClearThrows | src/App.tsx:72 | clearRenderer throws only when a render exists that is not live (its canvas already nulled), and never when no render exists or the world is live |
| Controller.MouseMove | src/App.tsx:111-115 | without a div nothing changes; otherwise positions become the client coordinates minus the div's corner, and nothing else changes |
| Controller.Reset | src/App.tsx:133-136 | when clearRenderer throws, the click leaves the cleared state, with no live world and an empty body list; otherwise it is clear then initialize, and with the div present the world is live and holds the boundaries (after any old bodies only if no render existed); counter, timers and positions are unchanged |
| Controller.StepsPreserveValid | src/App.tsx:18-115 | every handler keeps interval handles positive and below the next handle, and keeps the runner present whenever a render is |
| Controller.TicksAppendGrains | src/App.tsx:82-85 | n ticks append n grains, the i-th built with counter c + i, raise the counter by n and change nothing else |
| Controller.SessionEmitsInOrder | src/App.tsx:78-86 | for a press held still (no pointer move between ticks), the k-th tick (from 0) emits the grain for counter k with colour Colour(k) at the position stored before the press, after n ticks the counter is n, and earlier bodies are kept |
| Controller.Apply | src/App.tsx:82-115 | one drag event, a pointer move or a tick, keeps the scheduled intervals, the div and every earlier body |
| Controller.RunCounts | src/App.tsx:82-115 | over a run of moves and ticks, each tick raises the counter by one and adds one body, and the stored position is the last move's, made local |
| Controller.DragSessionEmitsInOrder | src/App.tsx:78-115 | in a drag after a press, the tick at position i emits the grain for counter k, the number of ticks before it, with colour Colour(k), at the position of the latest move before it; at the end the counter equals the number of ticks and each tick has added one body |
| Controller.TickWithoutPositionEmitsAtOrigin | src/App.tsx:92-99 | a tick before any pointer move still adds a grain, at (0, 0) |
| Controller.PressReleaseRestoresTimers | src/App.tsx:78-90 | a press followed by a release leaves the same set of scheduled intervals |
| Controller.SecondPressLeaksInterval | src/App.tsx:80-90 | after press, press, release, the first interval is still scheduled and the stored handle is the second one's |
| Controller.ReleaseWithoutPressIsNoOp | src/App.tsx:88-90 | a release before any press changes nothing |
| Controller.MountBuildsBoundaries | src/App.tsx:18-55 | initializing from the initial refs gives a live world holding exactly the four boundaries, for any div size including 0 x 0 |
| Controller.ClearBeforeInitializeIsNoOp | src/App.tsx:65-66 | clearRenderer with no render ever created changes nothing and does not throw |
| Controller.SecondClearThrows | src/App.tsx:65-76 | a second clearRenderer gets past the guard and throws, and it leaves the same state as the first |
| Controller.TickAfterClearAddsGrain | src/App.tsx:65-85 | teardown leaves the interval scheduled, and its next tick adds a grain to the emptied world, which is not live |
| Controller.ResetRebuildsBoundaries | src/App.tsx:133-136 | "Clear Canvas" on a live world leaves a live world holding exactly the boundaries a fresh mount would build; counter, timers and positions are unchanged |
| Controller.ResetAfterClearLeavesNoWorld | src/App.tsx:133-136 | "Clear Canvas" after a bare clearRenderer leaves no live world and an empty body list |
| Controller.ResetStartsStrayLoop | src/App.tsx:57-62 | each successful reset starts one more Engine.run loop that is never stopped |
| Component.RenderHandle.constructor | src/App.tsx:27-36 | Render.create gives a render of the div's size with a canvas and a context, an empty texture cache, and not yet running |
| Component.RunnerHandle.constructor | src/App.tsx:61 | Runner.create gives a runner that is not yet stepping |
| Component.App.constructor | src/App.tsx:7-16 | the object starts in the state Controller.Mounted describes |
| Component.App.InitializeRenderer | src/App.tsx:18-63 | updates the fields in place as Controller.Initialize says, with a fresh render and runner when the div exists |
| Component.App.ClearRenderer | src/App.tsx:65-76 | updates the fields and the render object as Controller.Clear says, and reports whether the call throws |
| Component.App.HandleMouseDown | src/App.tsx:78-86 | updates the fields as Controller.MouseDown says |
| Component.App.AddGrain | src/App.tsx:92-108 | appends exactly the grain for the current position and counter to the body list, and writes nothing else |
| Component.App.IntervalTick | src/App.tsx:82-85 | calls addGrain, then increments the counter, as Controller.Tick says |
| Component.App.HandleMouseUp | src/App.tsx:88-90 | updates the fields as Controller.MouseUp says |
| Component.App.UpdateMousePosition | src/App.tsx:111-115 | updates the fields as Controller.MouseMove says |
| Component.App.ClearCanvas | src/App.tsx:133-136 | clears and then initializes, stopping after a throwing clear, as Controller.Reset says |

## Left out

- Matter.js internals (`Engine.run`, `Render.create/run/stop`, `Runner.run/stop`, `World.clear`, `Engine.clear`). They are foreign library code. Each is modelled only by its effect on the body list and on the running, canvas, context and texture fields.
- Physics: body motion, collisions, and whether grains stay inside the walls. These depend on the library's solver and its floating-point integration.
- The ramp's rotated extent. It needs sin and cos of 40 degrees. The ramp keeps only its centre, size, angle and chamfer.
- Grain.Colour: states bounds and periodicity, not exact values. `Math.cos` is an unknown function: its bound and its period appear only as hypotheses (`CosBounded`, `CosPeriodic`), and floating-point rounding of the channel values is not modelled.
- The `rgb(...)` string formatting of the fill, including the line break inside the template literal. The fill is kept as three numbers.
- `Math.random` is a parameter `r` of each tick. Its range [0, 1) is a hypothesis of the radius bounds.
- The 20 ms period of `setInterval` and real time. A tick is an explicit call, and the browser's only promise modelled is that it calls back intervals that are still scheduled.
- The canvas element that `Render.create` appends to the div and `canvas.remove()` detaches. Only the render's `canvas` field is modelled, not the div's children.
- The div's size and position are fixed for the component's lifetime, so window resizes are not modelled. React attaching and detaching the `canvas` ref is not modelled either.
- The `useEffect` mount and unmount wiring, and adding and removing the `mousemove` listener on `window`. Mount corresponds to `Controller.Initialize` and unmount to `Controller.Clear`.
- The JSX layout, the buttons' styling, the unused `count` state and the `console.log` calls.
- JavaScript numbers are doubles. The model uses unbounded reals and integers, so `colorCounter++` never loses precision here.
