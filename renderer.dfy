/**
 * `SkiaOpenGLRenderer` (package/android/cpp/rnskia-android/SkiaOpenGLRenderer.h):
 * one renderer per view. Notifications from the UI thread only record what
 * happened; `run`, called again and again on one render thread, does all the
 * EGL and Skia work: it initialises, renders a frame or tears down, depending
 * on the render state.
 *
 * The EGL and Skia steps are abstract: each run is told, by a `GpuOutcomes`,
 * whether each step it attempts succeeds, and the renderer keeps the list of
 * steps it has taken, in order, in `calls`.
 */
module OpenGLRenderer {
  import opened Wrappers
  import opened RenderStates
  import opened ThreadContexts

  /** An `ANativeWindow*` handed over by the view. */
  datatype WindowId = WindowId(id: nat)

  /** A Skia surface (with its render target), of the size it was made for. */
  datatype SkSurface = SkSurface(width: int, height: int)

  /** Whether each EGL/Skia step succeeds if a run attempts it. */
  datatype GpuOutcomes = GpuOutcomes(glContext: bool, skContext: bool, glSurface: bool, skSurface: bool)

  /** A step that reaches outside the renderer. */
  datatype Call =
    | MakeGLContext(thread: ThreadId)           // display, config and EGL context of a thread
    | MakeSkiaContext(thread: ThreadId)         // the GrDirectContext of a thread
    | CreateGLSurface(window: WindowId)         // the EGL window surface of this renderer
    | CreateSkSurface(width: int, height: int)  // render target and SkSurface
    | ReleaseSkSurface
    | DrawFrame(width: int, height: int)        // clear, draw callback, flush, swap buffers
    | DestroyGLSurface
    | ReleaseWindow(window: WindowId)
    | ReleaseSurfaceCallback                    // the owner's release callback

  /** The calls of initStaticGLContext: the thread's GL context is made if it is missing and can be. */
  function GLContextCalls(ctx: DrawingContext, tid: ThreadId, made: bool): seq<Call>
  {
    if !ctx.glContext && made then [MakeGLContext(tid)] else []
  }

  /** The calls of initStaticSkiaContext: the thread's Skia context is made if it is missing and can be. */
  function SkiaContextCalls(ctx: DrawingContext, tid: ThreadId, made: bool): seq<Call>
  {
    if !ctx.skContext && made then [MakeSkiaContext(tid)] else []
  }

  /** The calls of initGLSurface: a GL surface is made from the window if there is none yet. */
  function GLSurfaceCalls(glSurface: Option<WindowId>, window: Option<WindowId>, made: bool): seq<Call>
  {
    if glSurface.None? && window.Some? && made then [CreateGLSurface(window.value)] else []
  }

  /**
   * The calls of ensureInitialised, given the thread's context and this
   * renderer's GL surface and window beforehand: each step runs only if the
   * steps before it succeeded.
   */
  function InitCalls(ctx: DrawingContext, glSurface: Option<WindowId>, window: Option<WindowId>,
                     tid: ThreadId, gpu: GpuOutcomes): (r: seq<Call>)
    ensures ReleaseSurfaceCallback !in r
  {
    var gl := ctx.glContext || gpu.glContext;
    var sk := ctx.skContext || gpu.skContext;
    GLContextCalls(ctx, tid, gpu.glContext)
    + (if gl then SkiaContextCalls(ctx, tid, gpu.skContext) else [])
    + (if gl && sk then GLSurfaceCalls(glSurface, window, gpu.glSurface) else [])
  }

  /**
   * The calls of ensureInitialised, taken apart at the step where it stops,
   * as they extend the calls made before.
   */
  lemma InitCallsSteps(before: seq<Call>, ctx: DrawingContext, glSurface: Option<WindowId>, window: Option<WindowId>,
                       tid: ThreadId, gpu: GpuOutcomes)
    ensures !(ctx.glContext || gpu.glContext) ==>
      before + InitCalls(ctx, glSurface, window, tid, gpu) == before + GLContextCalls(ctx, tid, gpu.glContext)
    ensures (ctx.glContext || gpu.glContext) && !(ctx.skContext || gpu.skContext) ==>
      before + InitCalls(ctx, glSurface, window, tid, gpu)
      == before + GLContextCalls(ctx, tid, gpu.glContext) + SkiaContextCalls(ctx, tid, gpu.skContext)
    ensures (ctx.glContext || gpu.glContext) && (ctx.skContext || gpu.skContext) ==>
      before + InitCalls(ctx, glSurface, window, tid, gpu)
      == before + GLContextCalls(ctx, tid, gpu.glContext) + SkiaContextCalls(ctx, tid, gpu.skContext)
         + GLSurfaceCalls(glSurface, window, gpu.glSurface)
  {
    var gl, sk, surface := GLContextCalls(ctx, tid, gpu.glContext), SkiaContextCalls(ctx, tid, gpu.skContext),
                           GLSurfaceCalls(glSurface, window, gpu.glSurface);
    assert before + (gl + sk) == before + gl + sk;
    assert before + (gl + sk + surface) == before + gl + sk + surface;
  }

  /**
   * The thread's context after ensureInitialised: the GL context is made if
   * missing, then the Skia context if missing, the latter only once the
   * former is in place.
   */
  function InitContext(ctx: DrawingContext, gpu: GpuOutcomes): (r: DrawingContext)
    ensures r.serial == ctx.serial
    ensures (ctx.glContext ==> r.glContext) && (ctx.skContext ==> r.skContext)
    ensures r.glContext == (ctx.glContext || gpu.glContext)
    ensures r.skContext && !ctx.skContext ==> r.glContext && gpu.skContext
  {
    var gl := ctx.glContext || gpu.glContext;
    ctx.(glContext := gl, skContext := ctx.skContext || (gl && gpu.skContext))
  }

  /** Whether ensureInitialised succeeds: GL context, Skia context and GL surface all in place. */
  predicate Initialises(ctx: DrawingContext, glSurface: Option<WindowId>, window: Option<WindowId>, gpu: GpuOutcomes)
  {
    && (ctx.glContext || gpu.glContext)
    && (ctx.skContext || gpu.skContext)
    && (glSurface.Some? || (window.Some? && gpu.glSurface))
  }

  /**
   * The calls of ensureSkiaSurface(width, height) when `held` is the current
   * Skia surface: none when it already has that size, otherwise the old
   * surface is released first and a new one is made if Skia allows it.
   */
  function SurfaceCalls(held: Option<SkSurface>, width: int, height: int, made: bool): seq<Call>
  {
    if held == Some(SkSurface(width, height)) then []
    else (if held.Some? then [ReleaseSkSurface] else []) + (if made then [CreateSkSurface(width, height)] else [])
  }

  /** The calls of rendering one frame: make sure of the surface, then draw if there is one. */
  function FrameCalls(held: Option<SkSurface>, width: int, height: int, made: bool): (r: seq<Call>)
    ensures ReleaseSurfaceCallback !in r
  {
    SurfaceCalls(held, width, height, made)
    + (if held == Some(SkSurface(width, height)) || made then [DrawFrame(width, height)] else [])
  }

  /** The calls of a run on a finishing renderer: free what it holds, then tell the owner. */
  function ReleaseCalls(sk: Option<SkSurface>, gl: Option<WindowId>, window: Option<WindowId>): seq<Call>
  {
    (if sk.Some? then [ReleaseSkSurface] else [])
    + (if gl.Some? then [DestroyGLSurface] else [])
    + (if window.Some? then [ReleaseWindow(window.value)] else [])
    + [ReleaseSurfaceCallback]
  }

  /** The release callback was made exactly once, as the last of the calls. */
  predicate CalledBackOnce(calls: seq<Call>)
  {
    && |calls| > 0
    && calls[|calls| - 1] == ReleaseSurfaceCallback
    && ReleaseSurfaceCallback !in calls[..|calls| - 1]
  }

  /**
   * ensureSkiaSurface takes no step when the surface it holds already has the
   * requested size; otherwise it makes a surface exactly when Skia allows it,
   * and releases the one it held, if any, before anything else.
   */
  lemma SurfaceRebuild(held: Option<SkSurface>, width: int, height: int, made: bool)
    ensures held == Some(SkSurface(width, height)) ==> SurfaceCalls(held, width, height, made) == []
    ensures held != Some(SkSurface(width, height)) ==>
      var r := SurfaceCalls(held, width, height, made);
      && (CreateSkSurface(width, height) in r <==> made)
      && (ReleaseSkSurface in r <==> held.Some?)
      && (held.Some? ==> r[0] == ReleaseSkSurface)
  {
  }

  /**
   * A run on a finishing renderer frees exactly what it holds, each once, and
   * ends with the one release callback.
   */
  lemma ReleaseFreesAll(sk: Option<SkSurface>, gl: Option<WindowId>, window: Option<WindowId>)
    ensures var r := ReleaseCalls(sk, gl, window);
      && CalledBackOnce(r)
      && (ReleaseSkSurface in r <==> sk.Some?)
      && (DestroyGLSurface in r <==> gl.Some?)
      && (forall w :: ReleaseWindow(w) in r <==> window == Some(w))
  {
  }

  class SkiaOpenGLRenderer {
    /** The static `threadContexts` table, shared with every other renderer. */
    const threadContexts: ContextTable

    var renderState: RenderState
    /** `_surfaceTexture`: the native window last made available, if not since destroyed. */
    var surfaceTexture: Option<WindowId>
    /** `_glSurface`: the EGL surface, named by the window it was made from; None is EGL_NO_SURFACE. */
    var glSurface: Option<WindowId>
    /** `_skSurface` with `_skRenderTarget`. */
    var skSurface: Option<SkSurface>
    /** The size the Skia surface was last made for. */
    var prevWidth: int
    var prevHeight: int
    /** The size last reported by surfaceAvailable or surfaceSizeChanged. */
    var pendingWidth: int
    var pendingHeight: int
    /** The EGL/Skia steps taken and callbacks made so far, in order. */
    var calls: seq<Call>
    /** The thread that runs this renderer, fixed by the first run. */
    ghost var renderThread: Option<ThreadId>

    /**
     * A renderer holds no surfaces while Initializing or Done and a GL surface
     * while Rendering; the run after a teardown releases what it holds. A Skia
     * surface needs a GL surface and always has the bound size, and the
     * release callback has been made once, last, if it is Done and never
     * otherwise.
     */
    ghost predicate Valid()
      reads this
    {
      && (renderState == Initializing ==> glSurface.None? && skSurface.None?)
      && (renderState == Rendering ==> glSurface.Some? && renderThread.Some?)
      && (renderState == Done ==> glSurface.None? && skSurface.None? && surfaceTexture.None?)
      && (skSurface.Some? ==> glSurface.Some? && skSurface == Some(SkSurface(prevWidth, prevHeight)))
      && (renderState != Done ==> ReleaseSurfaceCallback !in calls)
      && (renderState == Done ==> CalledBackOnce(calls))
    }

    /** The context `tid` would get from the shared table now. */
    function ContextOf(tid: ThreadId): DrawingContext
      reads threadContexts
    {
      if tid in threadContexts.contexts then threadContexts.contexts[tid]
      else DrawingContext(threadContexts.created, false, false)
    }

    /** A new renderer: Initializing, no window, no surfaces, bound and recorded size 0 x 0. */
    constructor (threadContexts: ContextTable)
      ensures Valid()
      ensures this.threadContexts == threadContexts
      ensures renderState == Initializing
      ensures surfaceTexture.None? && glSurface.None? && skSurface.None?
      ensures prevWidth == 0 && prevHeight == 0 && pendingWidth == 0 && pendingHeight == 0
      ensures calls == [] && renderThread.None?
    {
      this.threadContexts := threadContexts;
      renderState := Initializing;
      surfaceTexture := None;
      glSurface := None;
      skSurface := None;
      prevWidth, prevHeight := 0, 0;
      pendingWidth, pendingHeight := 0, 0;
      calls := [];
      renderThread := None;
    }

    /**
     * Marks a live renderer as finishing. It releases nothing: the next run on
     * the render thread does.
     */
    method Teardown()
      requires Valid()
      modifies this`renderState
      ensures Valid()
      ensures renderState == After(old(renderState), TeardownCalled)
      ensures calls == old(calls)
    {
      if renderState == Initializing || renderState == Rendering {
        renderState := Finishing;
      }
    }

    /** Records the window and its size for the next run; ignored once the renderer is finishing. */
    method SurfaceAvailable(surface: WindowId, width: int, height: int)
      requires Valid()
      modifies this`surfaceTexture, this`pendingWidth, this`pendingHeight
      ensures Valid()
      ensures renderState in {Initializing, Rendering} ==>
        surfaceTexture == Some(surface) && pendingWidth == width && pendingHeight == height
      ensures renderState in {Finishing, Done} ==>
        surfaceTexture == old(surfaceTexture) && pendingWidth == old(pendingWidth) && pendingHeight == old(pendingHeight)
    {
      if renderState == Initializing || renderState == Rendering {
        surfaceTexture := Some(surface);
        pendingWidth, pendingHeight := width, height;
      }
    }

    /** Forgets the window, so that no later run binds a surface to it. */
    method SurfaceDestroyed()
      requires Valid()
      modifies this`surfaceTexture
      ensures Valid()
      ensures surfaceTexture.None?
    {
      surfaceTexture := None;
    }

    /** Records the new size; the Skia surface follows it lazily, on a later run. */
    method SurfaceSizeChanged(width: int, height: int)
      requires Valid()
      modifies this`pendingWidth, this`pendingHeight
      ensures Valid()
      ensures pendingWidth == width && pendingHeight == height
    {
      pendingWidth, pendingHeight := width, height;
    }

    /** The width the Skia surface was last made for: that of the current surface, if there is one. */
    function GetScaledWidth(): (w: int)
      requires Valid()
      reads this
      ensures skSurface.Some? ==> w == skSurface.value.width
    {
      prevWidth
    }

    /** The height the Skia surface was last made for: that of the current surface, if there is one. */
    function GetScaledHeight(): (h: int)
      requires Valid()
      reads this
      ensures skSurface.Some? ==> h == skSurface.value.height
    {
      prevHeight
    }

    /**
     * The one driver, called on the render thread: initialise and render, render,
     * tear down, or do nothing, as the render state says.
     */
    method Run(tid: ThreadId, width: int, height: int, gpu: GpuOutcomes)
      requires Valid() && threadContexts.Valid()
      requires renderThread.None? || renderThread == Some(tid)
      modifies this, threadContexts
      ensures Valid() && threadContexts.Valid()
      ensures renderThread == Some(tid)
      ensures renderState == After(old(renderState),
        RunCalled(old(Initialises(ContextOf(tid), glSurface, surfaceTexture, gpu))))
      ensures pendingWidth == old(pendingWidth) && pendingHeight == old(pendingHeight)
      ensures surfaceTexture == if old(renderState) == Finishing then None else old(surfaceTexture)
      // without a Skia surface afterwards, the bound size read by getScaledWidth/Height is unchanged
      ensures skSurface.None? ==> prevWidth == old(prevWidth) && prevHeight == old(prevHeight)
      // Done: nothing happens at all
      ensures old(renderState) == Done ==>
        && calls == old(calls) && threadContexts.contexts == old(threadContexts.contexts)
        && skSurface == old(skSurface) && glSurface == old(glSurface)
        && prevWidth == old(prevWidth) && prevHeight == old(prevHeight)
      // Finishing: everything this renderer holds is released, then the owner is told
      ensures old(renderState) == Finishing ==>
        && calls == old(calls) + ReleaseCalls(old(skSurface), old(glSurface), old(surfaceTexture))
        && threadContexts.contexts == old(threadContexts.contexts)
      // Rendering: one frame, on a Skia surface of the requested size
      ensures old(renderState) == Rendering ==>
        && calls == old(calls) + FrameCalls(old(skSurface), width, height, gpu.skSurface)
        && threadContexts.contexts == old(threadContexts.contexts)
        && glSurface == old(glSurface)
      // Initializing: set up what is missing; on success also render this frame
      ensures old(renderState) == Initializing ==>
        && threadContexts.contexts == old(threadContexts.contexts)[tid := InitContext(old(ContextOf(tid)), gpu)]
        && calls == old(calls) + InitCalls(old(ContextOf(tid)), old(glSurface), old(surfaceTexture), tid, gpu)
                    + (if renderState == Rendering then FrameCalls(None, width, height, gpu.skSurface) else [])
      ensures old(renderState) == Initializing && renderState == Rendering ==>
        glSurface == old(surfaceTexture)
      ensures renderState == Rendering ==>
        skSurface == if old(skSurface) == Some(SkSurface(width, height)) || gpu.skSurface
                     then Some(SkSurface(width, height)) else None
    {
      renderThread := Some(tid);
      match renderState
      case Initializing =>
        InitialiseAndRender(tid, width, height, gpu);
      case Rendering =>
        RenderFrame(width, height, gpu.skSurface);
      case Finishing =>
        Release();
      case Done =>
    }

    /** The first runs: set up what is missing and, once everything is in place, render this frame. */
    method InitialiseAndRender(tid: ThreadId, width: int, height: int, gpu: GpuOutcomes)
      requires Valid() && threadContexts.Valid() && renderState == Initializing && renderThread.Some?
      modifies this`renderState, this`glSurface, this`skSurface, this`prevWidth, this`prevHeight, this`calls
      modifies threadContexts
      ensures Valid() && threadContexts.Valid()
      ensures renderState == After(Initializing,
        RunCalled(old(Initialises(ContextOf(tid), glSurface, surfaceTexture, gpu))))
      ensures threadContexts.contexts == old(threadContexts.contexts)[tid := InitContext(old(ContextOf(tid)), gpu)]
      ensures calls == old(calls) + InitCalls(old(ContextOf(tid)), None, surfaceTexture, tid, gpu)
                       + (if renderState == Rendering then FrameCalls(None, width, height, gpu.skSurface) else [])
      ensures renderState == Rendering ==>
        && glSurface == surfaceTexture
        && skSurface == if gpu.skSurface then Some(SkSurface(width, height)) else None
      ensures skSurface.None? ==> prevWidth == old(prevWidth) && prevHeight == old(prevHeight)
    {
      ghost var ctx, window, before := ContextOf(tid), surfaceTexture, calls;
      var ok := EnsureInitialised(tid, gpu);
      assert calls == before + InitCalls(ctx, None, window, tid, gpu);
      if ok {
        renderState := Rendering;
        RenderFrame(width, height, gpu.skSurface);
      }
    }

    /** The run after a teardown: free the Skia surface, the GL surface and the window, then tell the owner. */
    method Release()
      requires Valid() && renderState == Finishing
      modifies this`renderState, this`skSurface, this`glSurface, this`surfaceTexture, this`calls
      ensures Valid() && renderState == Done
      ensures calls == old(calls) + ReleaseCalls(old(skSurface), old(glSurface), old(surfaceTexture))
    {
      ghost var before := calls;
      ghost var sk := if skSurface.Some? then [ReleaseSkSurface] else [];
      ghost var gl := if glSurface.Some? then [DestroyGLSurface] else [];
      ghost var window := if surfaceTexture.Some? then [ReleaseWindow(surfaceTexture.value)] else [];
      renderState := Done;
      if skSurface.Some? {
        skSurface := None;
        calls := calls + [ReleaseSkSurface];
      }
      assert calls == before + sk;
      if glSurface.Some? {
        glSurface := None;
        calls := calls + [DestroyGLSurface];
      }
      assert calls == before + sk + gl;
      if surfaceTexture.Some? {
        calls := calls + [ReleaseWindow(surfaceTexture.value)];
        surfaceTexture := None;
      }
      assert calls == before + sk + gl + window;
      calls := calls + [ReleaseSurfaceCallback];
      assert calls == before + (sk + gl + window + [ReleaseSurfaceCallback]);
    }

    /** Renders one frame: make sure of the Skia surface, then draw on it if there is one. */
    method RenderFrame(width: int, height: int, surfaceMade: bool)
      requires Valid() && renderState == Rendering
      modifies this`skSurface, this`prevWidth, this`prevHeight, this`calls
      ensures Valid()
      ensures calls == old(calls) + FrameCalls(old(skSurface), width, height, surfaceMade)
      ensures skSurface == if old(skSurface) == Some(SkSurface(width, height)) || surfaceMade
                           then Some(SkSurface(width, height)) else None
      ensures skSurface.None? ==> prevWidth == old(prevWidth) && prevHeight == old(prevHeight)
    {
      var ok := EnsureSkiaSurface(width, height, surfaceMade);
      if ok {
        calls := calls + [DrawFrame(width, height)];
      }
    }

    /**
     * Sets up the thread's GL context, the thread's Skia context and this
     * renderer's GL surface, in that order, stopping at the first that fails.
     */
    method EnsureInitialised(tid: ThreadId, gpu: GpuOutcomes) returns (ok: bool)
      requires threadContexts.Valid() && glSurface.None?
      modifies this`glSurface, this`calls, threadContexts
      ensures threadContexts.Valid()
      ensures threadContexts.contexts == old(threadContexts.contexts)[tid := InitContext(old(ContextOf(tid)), gpu)]
      ensures ok == old(Initialises(ContextOf(tid), glSurface, surfaceTexture, gpu))
      ensures ok ==> glSurface == surfaceTexture && glSurface.Some?
      ensures !ok ==> glSurface.None?
      ensures calls == old(calls) + InitCalls(old(ContextOf(tid)), old(glSurface), old(surfaceTexture), tid, gpu)
    {
      ghost var ctx, table, before := ContextOf(tid), threadContexts.contexts, calls;
      InitCallsSteps(before, ctx, glSurface, surfaceTexture, tid, gpu);
      ok := InitStaticGLContext(tid, gpu.glContext);
      if !ok {
        assert InitContext(ctx, gpu) == ctx;
        return;
      }
      assert ContextOf(tid) == ctx.(glContext := true);
      ok := InitStaticSkiaContext(tid, gpu.skContext);
      assert InitContext(ctx, gpu) == ctx.(glContext := true, skContext := ok);
      assert threadContexts.contexts == table[tid := ctx.(glContext := true)][tid := ctx.(glContext := true, skContext := ok)];
      if !ok {
        return;
      }
      ok := InitGLSurface(gpu.glSurface);
    }

    /** Makes the thread's EGL display, config and context unless an earlier renderer on it did. */
    method InitStaticGLContext(tid: ThreadId, made: bool) returns (ok: bool)
      requires threadContexts.Valid()
      modifies this`calls, threadContexts
      ensures threadContexts.Valid()
      ensures var before := old(ContextOf(tid));
        && ok == (before.glContext || made)
        && threadContexts.contexts == old(threadContexts.contexts)[tid := before.(glContext := ok)]
        && calls == old(calls) + GLContextCalls(before, tid, made)
    {
      var ctx := threadContexts.GetThreadDrawingContext(tid);
      assert ctx == old(ContextOf(tid));
      if ctx.glContext {
        return true;
      }
      if !made {
        return false;
      }
      threadContexts.Update(tid, ctx.(glContext := true));
      calls := calls + [MakeGLContext(tid)];
      ok := true;
    }

    /** Makes the thread's Skia GPU context unless an earlier renderer on it did. */
    method InitStaticSkiaContext(tid: ThreadId, made: bool) returns (ok: bool)
      requires threadContexts.Valid()
      modifies this`calls, threadContexts
      ensures threadContexts.Valid()
      ensures var before := old(ContextOf(tid));
        && ok == (before.skContext || made)
        && threadContexts.contexts == old(threadContexts.contexts)[tid := before.(skContext := ok)]
        && calls == old(calls) + SkiaContextCalls(before, tid, made)
    {
      var ctx := threadContexts.GetThreadDrawingContext(tid);
      assert ctx == old(ContextOf(tid));
      if ctx.skContext {
        return true;
      }
      if !made {
        return false;
      }
      threadContexts.Update(tid, ctx.(skContext := true));
      calls := calls + [MakeSkiaContext(tid)];
      ok := true;
    }

    /** Makes this renderer's EGL surface from the window it was given, unless it has one. */
    method InitGLSurface(made: bool) returns (ok: bool)
      modifies this`glSurface, this`calls
      ensures ok == (old(glSurface).Some? || (surfaceTexture.Some? && made))
      ensures glSurface == if old(glSurface).None? && ok then surfaceTexture else old(glSurface)
      ensures calls == old(calls) + GLSurfaceCalls(old(glSurface), surfaceTexture, made)
    {
      if glSurface.Some? {
        return true;
      }
      if surfaceTexture.None? || !made {
        return false;
      }
      glSurface := surfaceTexture;
      calls := calls + [CreateGLSurface(surfaceTexture.value)];
      ok := true;
    }

    /**
     * Makes sure there is a Skia surface of the given size: it is rebuilt only
     * when there is none or the size differs from the bound size, and the old
     * one is released before the new one is made.
     */
    method EnsureSkiaSurface(width: int, height: int, made: bool) returns (ok: bool)
      requires Valid() && renderState == Rendering
      modifies this`skSurface, this`prevWidth, this`prevHeight, this`calls
      ensures Valid()
      ensures ok == (old(skSurface) == Some(SkSurface(width, height)) || made)
      ensures ok ==> skSurface == Some(SkSurface(width, height)) && prevWidth == width && prevHeight == height
      ensures !ok ==> skSurface.None? && prevWidth == old(prevWidth) && prevHeight == old(prevHeight)
      ensures calls == old(calls) + SurfaceCalls(old(skSurface), width, height, made)
    {
      ghost var held, before := skSurface, calls;
      if skSurface.None? || prevWidth != width || prevHeight != height {
        assert held != Some(SkSurface(width, height));
        if skSurface.Some? {
          skSurface := None;
          calls := calls + [ReleaseSkSurface];
        }
        ghost var released := calls;
        assert released == before + (if held.Some? then [ReleaseSkSurface] else []);
        if !made {
          assert SurfaceCalls(held, width, height, made) == released[|before|..];
          return false;
        }
        skSurface := Some(SkSurface(width, height));
        calls := calls + [CreateSkSurface(width, height)];
        prevWidth, prevHeight := width, height;
        assert calls == released + [CreateSkSurface(width, height)];
      }
      ok := true;
    }
  }
}
