/**
 * Whole lifetimes of renderers, driven as the view and the render thread
 * drive them, with the exact EGL/Skia steps each one takes.
 */
module RendererScenarios {
  import opened Wrappers
  import opened RenderStates
  import opened ThreadContexts
  import opened OpenGLRenderer

  /** Every EGL/Skia step succeeds. */
  const Healthy := GpuOutcomes(true, true, true, true)

  /**
   * A window of 100 x 200 arrives; the first run sets up the thread's
   * contexts, the GL surface and the Skia surface and draws; the second run
   * only draws.
   */
  method SteadyFrames() returns (trace: seq<Call>)
    ensures trace == FirstFrame + [DrawFrame(100, 200)]
  {
    var table := new ContextTable();
    var r := new SkiaOpenGLRenderer(table);
    r.SurfaceAvailable(WindowId(1), 100, 200);
    r.Run(ThreadId(0), r.pendingWidth, r.pendingHeight, Healthy);
    assert r.renderState == Rendering;
    r.Run(ThreadId(0), r.pendingWidth, r.pendingHeight, Healthy);
    trace := r.calls;
  }

  /** The first frame of a 100 x 200 window, on a thread with nothing set up yet. */
  const FirstFrame := [MakeGLContext(ThreadId(0)), MakeSkiaContext(ThreadId(0)), CreateGLSurface(WindowId(1)),
                       CreateSkSurface(100, 200), DrawFrame(100, 200)]

  /**
   * A rendering view is resized: the next run releases the old Skia surface,
   * makes one of the new size and draws on it.
   */
  method Resize() returns (trace: seq<Call>)
    ensures trace == FirstFrame + [ReleaseSkSurface, CreateSkSurface(300, 400), DrawFrame(300, 400)]
  {
    var table := new ContextTable();
    var r := new SkiaOpenGLRenderer(table);
    r.SurfaceAvailable(WindowId(1), 100, 200);
    r.Run(ThreadId(0), r.pendingWidth, r.pendingHeight, Healthy);
    assert r.calls == FirstFrame && r.skSurface == Some(SkSurface(100, 200));
    r.SurfaceSizeChanged(300, 400);
    assert FrameCalls(Some(SkSurface(100, 200)), 300, 400, true)
        == [ReleaseSkSurface, CreateSkSurface(300, 400), DrawFrame(300, 400)];
    r.Run(ThreadId(0), r.pendingWidth, r.pendingHeight, Healthy);
    trace := r.calls;
  }

  /**
   * A rendering view is torn down: the run after the teardown releases the
   * Skia surface, the GL surface and the window and calls back once; a later
   * run does nothing.
   */
  method Teardown() returns (trace: seq<Call>, state: RenderState)
    ensures trace == FirstFrame + [ReleaseSkSurface, DestroyGLSurface, ReleaseWindow(WindowId(1)), ReleaseSurfaceCallback]
    ensures state == Done
  {
    var table := new ContextTable();
    var r := new SkiaOpenGLRenderer(table);
    r.SurfaceAvailable(WindowId(1), 100, 200);
    r.Run(ThreadId(0), r.pendingWidth, r.pendingHeight, Healthy);
    assert r.calls == FirstFrame && r.skSurface == Some(SkSurface(100, 200));
    r.Teardown();
    assert ReleaseCalls(Some(SkSurface(100, 200)), Some(WindowId(1)), Some(WindowId(1)))
        == [ReleaseSkSurface, DestroyGLSurface, ReleaseWindow(WindowId(1)), ReleaseSurfaceCallback];
    r.Run(ThreadId(0), r.pendingWidth, r.pendingHeight, Healthy);
    r.Run(ThreadId(0), r.pendingWidth, r.pendingHeight, Healthy);
    trace, state := r.calls, r.renderState;
  }

  /**
   * Two views rendered on the same thread: the second renderer finds the
   * thread's contexts in place and only makes its own surfaces.
   */
  method SharedThreadContext() returns (contexts: nat, second: seq<Call>)
    ensures contexts == 1
    ensures second == [CreateGLSurface(WindowId(2)), CreateSkSurface(50, 50), DrawFrame(50, 50)]
  {
    var table := new ContextTable();
    var first := new SkiaOpenGLRenderer(table);
    var other := new SkiaOpenGLRenderer(table);
    first.SurfaceAvailable(WindowId(1), 100, 200);
    other.SurfaceAvailable(WindowId(2), 50, 50);
    first.Run(ThreadId(0), first.pendingWidth, first.pendingHeight, Healthy);
    assert table.contexts == map[ThreadId(0) := DrawingContext(0, true, true)];
    assert other.renderState == Initializing && other.surfaceTexture == Some(WindowId(2)) && other.calls == [];
    other.Run(ThreadId(0), other.pendingWidth, other.pendingHeight, Healthy);
    contexts, second := table.created, other.calls;
  }

  /**
   * The GL context cannot be made on the first run: the renderer stays
   * Initializing, having taken no step, and the next run starts over.
   */
  method RetryAfterFailedInit() returns (firstTrace: seq<Call>, firstState: RenderState, trace: seq<Call>)
    ensures firstTrace == [] && firstState == Initializing
    ensures trace == FirstFrame
  {
    var table := new ContextTable();
    var r := new SkiaOpenGLRenderer(table);
    r.SurfaceAvailable(WindowId(1), 100, 200);
    r.Run(ThreadId(0), r.pendingWidth, r.pendingHeight, GpuOutcomes(false, true, true, true));
    firstTrace, firstState := r.calls, r.renderState;
    r.Run(ThreadId(0), r.pendingWidth, r.pendingHeight, Healthy);
    trace := r.calls;
  }
}
