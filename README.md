# React Native Skia: Android OpenGL renderer lifecycle and drawing-node fan-out

This project models two parts of React Native Skia in Dafny and proves properties of the models.

**The Android `SkiaOpenGLRenderer`** (`package/android/cpp/rnskia-android/SkiaOpenGLRenderer.h`) is one renderer per view:

- The view notifies it from any thread: `surfaceAvailable`, `surfaceDestroyed`, `surfaceSizeChanged` and `teardown`. These only record what happened.
- One render thread calls `run` again and again. `run` does all of the EGL and Skia work:
  - while `Initializing`, it builds what is missing, in order: the thread's GL context, the thread's Skia context, then the renderer's GL surface. Once all three are in place it moves to `Rendering` and draws the frame.
  - while `Rendering`, it makes sure the Skia surface has the requested size, then draws.
  - after a teardown (`Finishing`), it releases everything, calls the owner's release callback and moves to `Done`.
  - once `Done`, it does nothing.
- The EGL and Skia contexts are shared by every renderer on a thread, through the static `threadContexts` table.

The model has four modules:

- `RenderStates` (`render_states.dfy`): the `RenderState` enum and the pure transition function `After`. Its lemmas follow a renderer through any interleaving of notifications, teardowns and runs.
- `ThreadContexts` (`thread_contexts.dfy`): the `threadContexts` table, as a class `ContextTable` whose map only grows.
  - A `DrawingContext` value is one shared context. Its `serial` is the identity of the `shared_ptr`.
- `OpenGLRenderer` (`renderer.dfy`): the class `SkiaOpenGLRenderer`, with the fields `renderState`, `surfaceTexture`, `glSurface`, `skSurface`, `prevWidth`/`prevHeight`, the recorded size, and `calls`.
  - `calls` lists the EGL/Skia steps taken and the callbacks made, in order.
  - Every method is specified against `After` and against pure functions that give the steps each operation takes.
- `RendererScenarios` (`renderer_scenarios.dfy`): whole lifetimes of renderers, with the exact steps each one takes.

How EGL and Skia are modelled:

- Each EGL/Skia step is an abstract step that succeeds or fails. A `GpuOutcomes` value passed to `run` says which of them succeed.
- A thread id is an opaque key.
- The notifications are sequential method calls, interleaved in any order with runs.
- The width and height `run` renders at are passed by the caller, as in the source. The scenarios pass the size last recorded by `surfaceAvailable`/`surfaceSizeChanged`.

**`DrawingNode`** (`package/src/renderer/nodes/Drawing.tsx`) is a node of the reconciler tree that draws through a user callback `onDraw`. It is modelled in module `Drawing` (`drawing.dfy`):

- The class `DrawingNode` keeps its constructor arguments and `descriptor()`.
- `draw(ctx)` is a method that returns the list of `Effect`s it makes, in order:
  - a `processPaint` call;
  - each child's `draw`;
  - each `onDraw` call.
- The paint list is built from pure functions that mirror `map` and `filter(isPaint)`. The `map`, `filter` and `forEach` loops are methods proved against those functions.
- JavaScript values have one type `V`. `materialize`, `selectPaint`, `isPaint`, JavaScript truthiness and `child.draw` are given functions, collected in `Env`.
- JavaScript `null` is `None`, and it is never a paint.

The header documents `run`, `teardown` and the `ensure*`/`init*` methods only in comments. Where it is silent, the model makes these choices (each one is also listed under "## Left out"):

- The header's `DrawingContext` is a mutable struct behind a `shared_ptr`. `getThreadDrawingContext` hands it out, and `initStaticGLContext`/`initStaticSkiaContext` fill it in. So the table entry is created empty and then filled in through the shared pointer (`ContextTable.Update`). It is never replaced and never removed.
- `teardown` only marks a live renderer (`Initializing` or `Rendering`) as `Finishing`. A teardown of a renderer that is already `Finishing` or `Done` changes nothing, so the release callback cannot fire twice. The header's comment says only that teardown sets the state to finishing. Read literally, with no guard, the state could go back from `Done` to `Finishing`, and the next run would release and call back again. `AfterUnguarded` models that reading, and `UnguardedTeardownReleasesTwice` shows the second callback.
- `surfaceAvailable` is ignored once the renderer is `Finishing` or `Done`.
- `Initializing` becomes `Rendering` only in a run whose initialisation succeeds, and that run also draws the frame.
- `ensureSkiaSurface` builds a surface when none is held, as well as when the requested size differs from the bound size.
- The renderer releases only the window it has recorded when the run after a teardown comes. A window that `surfaceAvailable` replaced, or that `surfaceDestroyed` cleared, is dropped without being released.

## Model

| member | source | states |
|---|---|---|
| `RenderStates.Ordinal` | package/android/cpp/rnskia-android/SkiaOpenGLRenderer.h:40-45 | the enum gives the four states the integers 0 to 3, in declaration order |
| `RenderStates.After` | package/android/cpp/rnskia-android/SkiaOpenGLRenderer.h:53-100 | no event moves the state back in enum order, and Done is terminal; notifications never change the state; teardown leaves the renderer Finishing or Done; Done is reached only from Finishing, by a run; Rendering is entered only from Initializing, by a run whose initialisation succeeds |
| `RenderStates.ReplayAdvances` | package/android/cpp/rnskia-android/SkiaOpenGLRenderer.h:40-45 | along any sequence of events the state never goes back in enum order and never leaves Done |
| `RenderStates.ReplayNeverGoesBack` | package/android/cpp/rnskia-android/SkiaOpenGLRenderer.h:40-45 | at any two points of one interleaving, the later state is not before the earlier one, and Done stays Done |
| `RenderStates.ReleasedOnce` | package/android/cpp/rnskia-android/SkiaOpenGLRenderer.h:53-62 | along any interleaving, the release callback fires exactly once if a live renderer reaches Done, and never otherwise |
| `RenderStates.DoneOnlyAfterRun` | package/android/cpp/rnskia-android/SkiaOpenGLRenderer.h:53-62 | a live renderer reaches Done only through a run made while it was Finishing: teardown alone releases nothing |
| `RenderStates.TeardownThenRun` | package/android/cpp/rnskia-android/SkiaOpenGLRenderer.h:53-62 | a second teardown changes nothing, and one run after a teardown takes any renderer to Done |
| `RenderStates.AfterUnguarded` | package/android/cpp/rnskia-android/SkiaOpenGLRenderer.h:53-62 | teardown read literally: the state becomes Finishing whatever it was; every other event acts as in `After` |
| `RenderStates.GuardOnlyMattersWhenDone` | package/android/cpp/rnskia-android/SkiaOpenGLRenderer.h:53-62 | the literal teardown and the guarded one differ exactly on a renderer that is already Done |
| `RenderStates.UnguardedTeardownReleasesTwice` | package/android/cpp/rnskia-android/SkiaOpenGLRenderer.h:53-62 | under the literal teardown, a teardown after Done moves the state back to Finishing. Along teardown, run, teardown, run the release callback then fires twice, where the guarded model fires it once |
| `ThreadContexts.ContextTable.constructor` | package/android/cpp/rnskia-android/SkiaOpenGLRenderer.h:38 | the static table starts empty |
| `ThreadContexts.ContextTable.GetThreadDrawingContext` | package/android/cpp/rnskia-android/SkiaOpenGLRenderer.h:139-144 | returns the thread's entry; the first call from a thread creates one empty context and stores it, and later calls create nothing and change nothing; no entry is lost, and no thread shares another's context |
| `ThreadContexts.ContextTable.Update` | package/android/cpp/rnskia-android/SkiaOpenGLRenderer.h:108-120 | writing through the shared pointer changes only that thread's entry, keeps it the same shared context, and undoes nothing already set up |
| `ThreadContexts.OwnContexts` | package/android/cpp/rnskia-android/SkiaOpenGLRenderer.h:38 | two different threads never hold the same shared context |
| `OpenGLRenderer.InitContext` | package/android/cpp/rnskia-android/SkiaOpenGLRenderer.h:102-120 | after initialisation the thread keeps the same shared context; nothing already set up is undone; the GL context is there if it was or could be made; a Skia context is made only once the GL context is in place |
| `OpenGLRenderer.InitCalls` | package/android/cpp/rnskia-android/SkiaOpenGLRenderer.h:102-128 | initialisation never calls the release callback |
| `OpenGLRenderer.FrameCalls` | package/android/cpp/rnskia-android/SkiaOpenGLRenderer.h:130-137 | rendering a frame never calls the release callback |
| `OpenGLRenderer.SurfaceRebuild` | package/android/cpp/rnskia-android/SkiaOpenGLRenderer.h:130-137 | no step when the held surface already has the requested size; otherwise a surface is made exactly when Skia allows it, and the old surface, if any, is released before anything else |
| `OpenGLRenderer.ReleaseFreesAll` | package/android/cpp/rnskia-android/SkiaOpenGLRenderer.h:53-62 | the release run frees exactly the Skia surface, GL surface and window it holds, each once, and ends with the single release callback |
| `OpenGLRenderer.SkiaOpenGLRenderer.constructor` | package/android/cpp/rnskia-android/SkiaOpenGLRenderer.h:146-158 | a new renderer is Initializing, with no window, no GL surface, no Skia surface, and a bound size and recorded size of 0 x 0 |
| `OpenGLRenderer.SkiaOpenGLRenderer.Teardown` | package/android/cpp/rnskia-android/SkiaOpenGLRenderer.h:53-62 | the state becomes `After(state, teardown)`, so a live renderer becomes Finishing; nothing is released and no step is taken |
| `OpenGLRenderer.SkiaOpenGLRenderer.SurfaceAvailable` | package/android/cpp/rnskia-android/SkiaOpenGLRenderer.h:64-68 | records the window and its size for the next run while the renderer is live; once Finishing or Done it changes nothing |
| `OpenGLRenderer.SkiaOpenGLRenderer.SurfaceDestroyed` | package/android/cpp/rnskia-android/SkiaOpenGLRenderer.h:70-73 | forgets the window and does not tear the renderer down; it releases neither the window nor the GL surface made from it |
| `OpenGLRenderer.SkiaOpenGLRenderer.SurfaceSizeChanged` | package/android/cpp/rnskia-android/SkiaOpenGLRenderer.h:75-78 | records the new size and leaves the surfaces alone until a run |
| `OpenGLRenderer.SkiaOpenGLRenderer.GetScaledWidth` | package/android/cpp/rnskia-android/SkiaOpenGLRenderer.h:86 | the last bound width, which is the width of the current Skia surface when there is one |
| `OpenGLRenderer.SkiaOpenGLRenderer.GetScaledHeight` | package/android/cpp/rnskia-android/SkiaOpenGLRenderer.h:87 | the last bound height, which is the height of the current Skia surface when there is one |
| `OpenGLRenderer.SkiaOpenGLRenderer.Run` | package/android/cpp/rnskia-android/SkiaOpenGLRenderer.h:91-100 | the new state is `After(state, run)`; Done does nothing; Finishing releases everything and calls back; Rendering draws one frame on a surface of the requested size; Initializing builds what is missing and, on success, draws the frame; each case gives the exact steps taken; when no Skia surface is held afterwards, the bound size that `getScaledWidth`/`getScaledHeight` return is unchanged; the renderer invariant is kept: no surfaces while Initializing or Done, a GL surface while Rendering (released by the run after a teardown), a Skia surface only of the bound size, and the callback made once and last exactly when Done |
| `OpenGLRenderer.SkiaOpenGLRenderer.InitialiseAndRender` | package/android/cpp/rnskia-android/SkiaOpenGLRenderer.h:91-106 | a run while Initializing moves to Rendering exactly when initialisation succeeds, and then renders in the same run, with the GL surface bound to the recorded window; with no Skia surface afterwards the bound size is unchanged |
| `OpenGLRenderer.SkiaOpenGLRenderer.Release` | package/android/cpp/rnskia-android/SkiaOpenGLRenderer.h:53-62 | the run after a teardown frees the Skia surface, the GL surface and the window, in that order, calls back, and leaves the renderer Done: its steps are `ReleaseCalls` of what it held |
| `OpenGLRenderer.SkiaOpenGLRenderer.RenderFrame` | package/android/cpp/rnskia-android/SkiaOpenGLRenderer.h:91-100 | makes sure of the Skia surface, then draws exactly when there is one of the requested size; if none can be made, the bound size is unchanged |
| `OpenGLRenderer.SkiaOpenGLRenderer.EnsureInitialised` | package/android/cpp/rnskia-android/SkiaOpenGLRenderer.h:102-106 | succeeds exactly when the GL context, the Skia context and the GL surface are all in place (`Initialises`); each step is tried only after the ones before it succeed; on failure no GL surface is bound; the thread's entry is created or filled in and nothing else in the table changes |
| `OpenGLRenderer.SkiaOpenGLRenderer.InitStaticGLContext` | package/android/cpp/rnskia-android/SkiaOpenGLRenderer.h:108-113 | the thread's GL context is reused if an earlier renderer made it, otherwise made if EGL allows; the result says whether it is in place; its steps are `GLContextCalls` |
| `OpenGLRenderer.SkiaOpenGLRenderer.InitStaticSkiaContext` | package/android/cpp/rnskia-android/SkiaOpenGLRenderer.h:115-120 | the thread's Skia context is reused if an earlier renderer made it, otherwise made if Skia allows; the result says whether it is in place; its steps are `SkiaContextCalls` |
| `OpenGLRenderer.SkiaOpenGLRenderer.InitGLSurface` | package/android/cpp/rnskia-android/SkiaOpenGLRenderer.h:122-128 | succeeds when a GL surface exists or can be made from the recorded window; a new surface is bound to that window; its steps are `GLSurfaceCalls` |
| `OpenGLRenderer.SkiaOpenGLRenderer.EnsureSkiaSurface` | package/android/cpp/rnskia-android/SkiaOpenGLRenderer.h:130-137 | succeeds exactly when the held surface has the requested size or a new one can be made; afterwards the surface and the bound size are the requested ones; on failure no surface is held; the steps taken are those of `SurfaceCalls` |
| `RendererScenarios.SteadyFrames` | package/android/cpp/rnskia-android/SkiaOpenGLRenderer.h:130-137 | the first run builds contexts and surfaces and draws; a second run at the same size only draws |
| `RendererScenarios.Resize` | package/android/cpp/rnskia-android/SkiaOpenGLRenderer.h:75-78 | after a size change the next run releases the old Skia surface before making one of the new size, then draws |
| `RendererScenarios.Teardown` | package/android/cpp/rnskia-android/SkiaOpenGLRenderer.h:53-62 | after a teardown one run releases everything and calls back once; a later run takes no step; the renderer ends Done |
| `RendererScenarios.SharedThreadContext` | package/android/cpp/rnskia-android/SkiaOpenGLRenderer.h:139-144 | a second renderer on the same thread finds the thread's contexts in place: one context exists, and the second renderer only makes its own surfaces |
| `RendererScenarios.RetryAfterFailedInit` | package/android/cpp/rnskia-android/SkiaOpenGLRenderer.h:102-106 | a run whose GL context cannot be made takes no step and stays Initializing; the next run starts over and renders |
| `Drawing.DrawingNode.constructor` | package/src/renderer/nodes/Drawing.tsx:40-51 | stores `onDraw`, `skipProcessing`, `drawingType` and the props unchanged |
| `Drawing.DrawingNode.Descriptor` | package/src/renderer/nodes/Drawing.tsx:53-58 | the descriptor holds the node's drawing type and props, unchanged |
| `Drawing.DrawingNode.Draw` | package/src/renderer/nodes/Drawing.tsx:60-86 | the effects of `draw` are those of the specification `Effects`, whose properties are the lemmas below; the paints it draws are `PaintsToDraw` |
| `Drawing.DrawingNode.DrawChildren` | package/src/renderer/nodes/Drawing.tsx:71-80 | the `map` draws every child once, in order, and yields each result if truthy and null otherwise |
| `Drawing.FilterPaints` | package/src/renderer/nodes/Drawing.tsx:81 | the `filter` yields `Paints`, the non-null paints among the results, in order |
| `Drawing.DrawingNode.CallOnDraw` | package/src/renderer/nodes/Drawing.tsx:82-84 | the `forEach` calls the callback once per paint, in order |
| `Drawing.Returned` | package/src/renderer/nodes/Drawing.tsx:74-79 | a child's result is kept exactly when it is truthy, and then unchanged |
| `Drawing.ChildResults` | package/src/renderer/nodes/Drawing.tsx:71-80 | one result per child, in child order, each that child's `draw(ctx)` made null when falsy |
| `Drawing.ChildDraws` | package/src/renderer/nodes/Drawing.tsx:71-80 | one child draw per child, in child order, each with the node's own context |
| `Drawing.OnDraws` | package/src/renderer/nodes/Drawing.tsx:82-84 | one callback call per paint, in order, each with the context whose paint is that paint |
| `Drawing.PaintPositions` | package/src/renderer/nodes/Drawing.tsx:81 | one position per kept paint, each a valid index into the results |
| `Drawing.PositionsHoldPaints` | package/src/renderer/nodes/Drawing.tsx:81 | the k-th kept paint is the result at the k-th position |
| `Drawing.PositionsIncrease` | package/src/renderer/nodes/Drawing.tsx:81 | the positions strictly increase: the filter keeps the results' order |
| `Drawing.PositionsAreThePaints` | package/src/renderer/nodes/Drawing.tsx:81 | a result's position is kept exactly when the result is a non-null paint |
| `Drawing.NoPaints` | package/src/renderer/nodes/Drawing.tsx:71-81 | results none of which is a paint contribute no paint |
| `Drawing.SkipPath` | package/src/renderer/nodes/Drawing.tsx:61-63 | with `skipProcessing`, `draw` calls `onDraw` exactly once, with the context unchanged, the materialised props and the node, and draws no child |
| `Drawing.ProcessingPath` | package/src/renderer/nodes/Drawing.tsx:65-84 | otherwise `draw` processes the selected paint once, draws each child exactly once, in order, then calls `onDraw` once per paint to draw; every call gets the same props and node, and a context that differs from `ctx` only in its paint; there are 1 + children + paints effects |
| `Drawing.ChildPaintsInOrder` | package/src/renderer/nodes/Drawing.tsx:69-81 | in `PaintsToDraw` (the array of the selected paint followed by the filtered child paints), the first paint drawn is the selected one; the rest correspond one to one, in child order, to the children whose `draw` returned a truthy paint, and to no other child |
| `Drawing.OnlySelectedPaint` | package/src/renderer/nodes/Drawing.tsx:69-84 | when no child returns a paint, `onDraw` runs once, with the selected paint |

## Left out

- The implementation file `SkiaOpenGLRenderer.cpp` is not part of this model. The behaviour of `run` and of the `ensure*`/`init*` methods follows the header's comments, and the choices below where they are silent.
- RenderStates.After: the guard that makes teardown a no-op once `Finishing` or `Done` is an assumption the header does not state. Without it the state can go back from `Done` to `Finishing` and the release can happen twice; `After`'s monotonicity, `ReplayAdvances` and `ReleasedOnce` rely on the guard. `AfterUnguarded` gives the literal reading.
- OpenGLRenderer.SkiaOpenGLRenderer.Teardown: has the same assumed guard as `RenderStates.After`. A teardown of a `Finishing` or `Done` renderer changes nothing.
- OpenGLRenderer.SkiaOpenGLRenderer.SurfaceAvailable: assumed to change nothing once the renderer is `Finishing` or `Done`; the header does not say so.
- OpenGLRenderer.SkiaOpenGLRenderer.InitialiseAndRender: assumes that `Initializing` becomes `Rendering` only when `ensureInitialised` succeeds, and that the same run then renders; the header says only that `run` initialises, renders and tears down depending on the state.
- OpenGLRenderer.SkiaOpenGLRenderer.Release: the header does not say who owns `_surfaceTexture`. The renderer is assumed to release only the window recorded at teardown (`ReleaseWindow` in `ReleaseCalls`). A window replaced by `surfaceAvailable` or cleared by `surfaceDestroyed` earlier is dropped without release.
- OpenGLRenderer.SkiaOpenGLRenderer.EnsureSkiaSurface: assumes a surface is also built when none is held; the header mentions only recreating it when the width or height change.
- The EGL, GLES and Skia calls are not modelled: display, config, context and surface creation, `GrDirectContext`, the render target, clearing, flushing and swapping buffers. Each is one abstract step that succeeds or fails as `GpuOutcomes` says. A `DrawingContext` keeps only whether its GL context (with display and config) and its Skia context are set up.
- The render callback `cb` and `renderToSkCanvas` are not modelled: a frame is the single step `DrawFrame`.
- `RNSkLog`, `RNSkPlatformContextImpl`, `getPixelDensity` and the `_context` field are not modelled.
- Real threads, `std::atomic` and memory ordering are not modelled. Notifications are sequential calls interleaved between runs. The render thread is a ghost field fixed by the first run.
- Releasing the old GL surface when a new window arrives after initialisation is not modelled, because the header says nothing about it. The GL surface stays bound to the window it was made from until teardown. So runs after `surfaceDestroyed` go on drawing on the GL surface made from the old window.
- OpenGLRenderer.SkiaOpenGLRenderer.GetScaledWidth: returns the bound width as an integer, not converted to `float`. Sizes are integers throughout.
- OpenGLRenderer.SkiaOpenGLRenderer.GetScaledHeight: returns the bound height as an integer, not converted to `float`.
- The React `Drawing` component and `createDrawing` are not modelled: they are JSX glue and an identity function.
- The `Node` base class and its `DependencyManager` are not modelled. A new node has no children. The children a node draws are whatever its `children` field holds.
- The internals of `materialize`, `selectPaint`, `processPaint`, `isPaint`, `ctx.opacity` and a child's `draw` are not modelled. They are given functions; `processPaint`'s mutation of the paint and a child's own drawing are single effects.
- JavaScript `null` is assumed never to be a paint (`isPaint(null)` is false). Exceptions thrown by callbacks are not modelled.
