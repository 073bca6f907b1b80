/**
 * The render state of one Android OpenGL renderer (package/android/cpp/rnskia-android/SkiaOpenGLRenderer.h)
 * and the transitions its operations make, apart from the GPU resources they touch.
 *
 * `After` is the transition function the renderer's methods are specified against;
 * the lemmas below follow a renderer through any interleaving of notifications,
 * teardowns and runs.
 */
module RenderStates {

  /** The four lifecycle states, in the order of the `RenderState : int` enum. */
  datatype RenderState = Initializing | Rendering | Finishing | Done

  /** The integer the enum gives each state. */
  function Ordinal(s: RenderState): (n: nat)
    ensures n < 4
  {
    match s
    case Initializing => 0
    case Rendering => 1
    case Finishing => 2
    case Done => 3
  }

  /** What can happen to a renderer between two looks at its state. */
  datatype Event =
    | TeardownCalled                // teardown(), from any thread
    | Notified                      // surfaceAvailable, surfaceDestroyed or surfaceSizeChanged
    | RunCalled(initialises: bool)  // run() on the render thread; `initialises` tells whether
                                    // ensureInitialised succeeds if this run calls it

  /**
   * The state after one event. Notifications leave the state alone, teardown
   * marks a live renderer as finishing, and only run moves it on: it finishes
   * initialisation when that succeeds and completes a pending teardown.
   */
  function After(s: RenderState, e: Event): (t: RenderState)
    ensures Ordinal(s) <= Ordinal(t)
    ensures s == Done ==> t == Done
    ensures e.Notified? ==> t == s
    ensures e.TeardownCalled? ==> t == Finishing || t == Done
    ensures t == Done && s != Done ==> s == Finishing && e.RunCalled?
    ensures t == Rendering && s != Rendering ==> s == Initializing && e == RunCalled(true)
  {
    match e
    case Notified => s
    case TeardownCalled =>
      if s == Initializing || s == Rendering then Finishing else s
    case RunCalled(ok) =>
      match s
      case Initializing => if ok then Rendering else Initializing
      case Rendering => Rendering
      case Finishing => Done
      case Done => Done
  }

  /** Whether the release callback fires on this event: on a run of a finishing renderer. */
  predicate Releases(s: RenderState, e: Event)
  {
    s == Finishing && e.RunCalled?
  }

  /** The state after a whole sequence of events. */
  function Replay(s: RenderState, es: seq<Event>): RenderState
    decreases |es|
  {
    if es == [] then s else Replay(After(s, es[0]), es[1..])
  }

  /** How many times the release callback fires along a sequence of events. */
  function ReleaseCount(s: RenderState, es: seq<Event>): nat
    decreases |es|
  {
    if es == [] then 0
    else (if Releases(s, es[0]) then 1 else 0) + ReleaseCount(After(s, es[0]), es[1..])
  }

  /** Replaying two sequences one after the other is replaying their concatenation. */
  lemma {:induction false} ReplayAppend(s: RenderState, a: seq<Event>, b: seq<Event>)
    ensures Replay(s, a + b) == Replay(Replay(s, a), b)
    decreases |a|
  {
    if a != [] {
      assert (a + b)[0] == a[0];
      assert (a + b)[1..] == a[1..] + b;
      ReplayAppend(After(s, a[0]), a[1..], b);
    } else {
      assert a + b == b;
    }
  }

  /** No sequence of events moves the state backwards, and none leaves Done. */
  lemma {:induction false} ReplayAdvances(s: RenderState, es: seq<Event>)
    ensures Ordinal(s) <= Ordinal(Replay(s, es))
    ensures s == Done ==> Replay(s, es) == Done
    decreases |es|
  {
    if es != [] {
      ReplayAdvances(After(s, es[0]), es[1..]);
    }
  }

  /** Along any interleaving, a later state is never before an earlier one in enum order. */
  lemma ReplayNeverGoesBack(s: RenderState, es: seq<Event>, i: nat, j: nat)
    requires i <= j <= |es|
    ensures Ordinal(Replay(s, es[..i])) <= Ordinal(Replay(s, es[..j]))
    ensures Replay(s, es[..i]) == Done ==> Replay(s, es[..j]) == Done
  {
    assert es[..i] + es[i..j] == es[..j];
    ReplayAppend(s, es[..i], es[i..j]);
    ReplayAdvances(Replay(s, es[..i]), es[i..j]);
  }

  /**
   * The release callback fires exactly once along any interleaving that takes
   * a live renderer to Done, and never otherwise: not on a second teardown,
   * not on a run after Done.
   */
  lemma {:induction false} ReleasedOnce(s: RenderState, es: seq<Event>)
    ensures ReleaseCount(s, es) == if s != Done && Replay(s, es) == Done then 1 else 0
    decreases |es|
  {
    if es != [] {
      var t := After(s, es[0]);
      ReleasedOnce(t, es[1..]);
      if t == Done {
        ReplayAdvances(t, es[1..]);
      }
    }
  }

  /**
   * Teardown releases nothing by itself: a live renderer reaches Done only
   * through a run made while it was Finishing.
   */
  lemma {:induction false} DoneOnlyAfterRun(s: RenderState, es: seq<Event>)
    requires s != Done && Replay(s, es) == Done
    ensures exists i :: 0 <= i < |es| && es[i].RunCalled? && Replay(s, es[..i]) == Finishing
    decreases |es|
  {
    if es != [] {
      var t := After(s, es[0]);
      if t == Done {
        assert es[..0] == [];
        assert es[0].RunCalled? && Replay(s, es[..0]) == Finishing;
      } else {
        DoneOnlyAfterRun(t, es[1..]);
        var i :| 0 <= i < |es[1..]| && es[1..][i].RunCalled? && Replay(t, es[1..][..i]) == Finishing;
        assert es[..i + 1][0] == es[0] && es[..i + 1][1..] == es[1..][..i];
        assert es[i + 1].RunCalled? && Replay(s, es[..i + 1]) == Finishing;
      }
    }
  }

  /**
   * Teardown read literally, as "sets the state to finishing" whatever the
   * state: the other events are as in `After`.
   */
  function AfterUnguarded(s: RenderState, e: Event): (t: RenderState)
    ensures e.TeardownCalled? ==> t == Finishing
    ensures !e.TeardownCalled? ==> t == After(s, e)
  {
    if e.TeardownCalled? then Finishing else After(s, e)
  }

  /** How many times the release callback fires along a sequence of events when teardown is unguarded. */
  function UnguardedReleaseCount(s: RenderState, es: seq<Event>): nat
    decreases |es|
  {
    if es == [] then 0
    else (if Releases(s, es[0]) then 1 else 0) + UnguardedReleaseCount(AfterUnguarded(s, es[0]), es[1..])
  }

  /** The unguarded teardown differs from the guarded one exactly on a renderer that is already Done. */
  lemma GuardOnlyMattersWhenDone(s: RenderState)
    ensures AfterUnguarded(s, TeardownCalled) != After(s, TeardownCalled) <==> s == Done
  {
  }

  /**
   * Without the guard, a teardown after Done moves the state back to
   * Finishing, and the next run releases and calls back a second time.
   */
  lemma UnguardedTeardownReleasesTwice()
    ensures Ordinal(AfterUnguarded(Done, TeardownCalled)) < Ordinal(Done)
    ensures var es := [TeardownCalled, RunCalled(true), TeardownCalled, RunCalled(true)];
      && ReleaseCount(Rendering, es) == 1
      && UnguardedReleaseCount(Rendering, es) == 2
  {
    var es := [TeardownCalled, RunCalled(true), TeardownCalled, RunCalled(true)];
    assert es[1..][1..][1..][1..] == [];
  }

  /** One run after a teardown finishes any renderer, and further teardowns change nothing. */
  lemma TeardownThenRun(s: RenderState, ok: bool)
    ensures After(After(s, TeardownCalled), TeardownCalled) == After(s, TeardownCalled)
    ensures After(After(s, TeardownCalled), RunCalled(ok)) == Done
  {
  }
}
