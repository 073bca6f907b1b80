/**
 * The process-wide table of per-thread drawing contexts
 * (`threadContexts` in package/android/cpp/rnskia-android/SkiaOpenGLRenderer.h).
 * Every renderer that runs on one render thread shares that thread's EGL
 * context and Skia GPU context; the table is keyed by thread and only grows.
 */
module ThreadContexts {

  /** A `std::thread::id`, used only as a key. */
  datatype ThreadId = ThreadId(id: nat)

  /**
   * One shared `DrawingContext`. `serial` tells shared contexts apart (it is
   * the identity of the `shared_ptr`); `glContext` says that the EGL context,
   * display and config are set, `skContext` that the Skia GPU context is.
   * A context is created with neither and filled in by the renderer.
   */
  datatype DrawingContext = DrawingContext(serial: nat, glContext: bool, skContext: bool)

  /**
   * `after` keeps every thread of `before`, each still bound to the same shared
   * context, and nothing already set up in a context is undone.
   */
  ghost predicate Grows(before: map<ThreadId, DrawingContext>, after: map<ThreadId, DrawingContext>)
  {
    forall t :: t in before ==>
      && t in after
      && after[t].serial == before[t].serial
      && (before[t].glContext ==> after[t].glContext)
      && (before[t].skContext ==> after[t].skContext)
  }

  /** The static `unordered_map<thread::id, shared_ptr<DrawingContext>>`. */
  class ContextTable {
    var contexts: map<ThreadId, DrawingContext>
    /** How many contexts were ever created; each is created for a new thread. */
    var created: nat
    /** The thread each context was created for, by serial. */
    ghost var owners: seq<ThreadId>

    /**
     * One creation per entry, and each entry's serial names the thread it was
     * created for, so no two threads share a context.
     */
    ghost predicate Valid()
      reads this
    {
      && |contexts| == created == |owners|
      && (forall t :: t in contexts ==> contexts[t].serial < created && owners[contexts[t].serial] == t)
    }

    /** The table is empty when the library is loaded. */
    constructor ()
      ensures Valid()
      ensures contexts == map[] && created == 0
    {
      contexts := map[];
      created := 0;
      owners := [];
    }

    /**
     * `getThreadDrawingContext`: the context of thread `tid`. The first call
     * from a thread creates an empty context and stores it; every later call
     * from that thread returns the same one and creates nothing.
     */
    method GetThreadDrawingContext(tid: ThreadId) returns (ctx: DrawingContext)
      requires Valid()
      modifies this
      ensures Valid() && Grows(old(contexts), contexts)
      ensures contexts == old(contexts)[tid := ctx]
      ensures tid in old(contexts) ==> ctx == old(contexts)[tid] && created == old(created)
      ensures tid !in old(contexts) ==> ctx == DrawingContext(old(created), false, false) && created == old(created) + 1
    {
      if tid in contexts {
        assert contexts[tid := contexts[tid]] == contexts;
      } else {
        assert (contexts[tid := DrawingContext(created, false, false)]).Keys == contexts.Keys + {tid};
        contexts := contexts[tid := DrawingContext(created, false, false)];
        created := created + 1;
        owners := owners + [tid];
      }
      ctx := contexts[tid];
    }

    /**
     * Sets up more of thread `tid`'s context, written through the shared
     * pointer: the entry stays the same shared context.
     */
    method Update(tid: ThreadId, ctx: DrawingContext)
      requires Valid() && tid in contexts
      requires ctx.serial == contexts[tid].serial
      requires contexts[tid].glContext ==> ctx.glContext
      requires contexts[tid].skContext ==> ctx.skContext
      modifies this
      ensures Valid() && Grows(old(contexts), contexts)
      ensures contexts == old(contexts)[tid := ctx] && created == old(created)
    {
      assert (contexts[tid := ctx]).Keys == contexts.Keys;
      contexts := contexts[tid := ctx];
    }
  }

  /** No two threads share a context: each thread gets a context of its own. */
  lemma OwnContexts(table: ContextTable, a: ThreadId, b: ThreadId)
    requires table.Valid() && a in table.contexts && b in table.contexts && a != b
    ensures table.contexts[a].serial != table.contexts[b].serial
  {
  }
}
