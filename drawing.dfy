/**
 * `DrawingNode` (package/src/renderer/nodes/Drawing.tsx): a node of the
 * reconciler's tree that draws through a user callback. Its `draw` either
 * calls the callback once with the context as given, or selects and
 * processes a paint, draws every child, and calls the callback once with the
 * selected paint and once more with each paint a child returned, in child
 * order.
 *
 * JavaScript values are of one type `V`. The collaborators `materialize`,
 * `selectPaint`, `processPaint`, `isPaint`, JavaScript truthiness and each
 * child's `draw` are given functions (`Env`); what `draw` does to the world is
 * the list of `Effect`s it makes, in order.
 */
module Drawing {
  import opened Wrappers

  /** The drawing context handed down the tree; only its paint is ever replaced. */
  datatype DrawingContext<V> = DrawingContext(paint: V, opacity: V, rest: V)

  /** The collaborators `draw` relies on. */
  datatype Env<!V> = Env(
    materialize: V -> V,                         // resolves animated props to plain ones
    selectPaint: (V, V) -> V,                    // the paint to draw with, from the context's paint and the props
    truthy: V -> bool,                           // JavaScript truthiness
    isPaint: V -> bool,                          // whether a (non-null) value is an SkPaint
    drawChild: (V, DrawingContext<V>) -> V)      // what `child.draw(ctx)` returns

  /** What `descriptor()` returns. */
  datatype NodeDescriptor<V> = NodeDescriptor(drawingType: Option<string>, props: V)

  /** One thing `draw` does outside the node, in the order it does them. */
  datatype Effect<V> =
    | ProcessPaint(paint: V, opacity: V, props: V)
    | DrawChild(child: V, ctx: DrawingContext<V>)
    | OnDraw(callback: V, ctx: DrawingContext<V>, props: V, node: DrawingNode<V>)

  /** What the `map` callback makes of a child's result: the result if truthy, otherwise null. */
  function Returned<V>(env: Env<V>, ret: V): (r: Option<V>)
    ensures r.Some? <==> env.truthy(ret)
    ensures r.Some? ==> r.value == ret
  {
    if env.truthy(ret) then Some(ret) else None
  }

  /** `this.children.map(...)`: every child is drawn with the node's own context. */
  function ChildResults<V>(env: Env<V>, children: seq<V>, ctx: DrawingContext<V>): (r: seq<Option<V>>)
    ensures |r| == |children|
    ensures forall i :: 0 <= i < |children| ==> r[i] == Returned(env, env.drawChild(children[i], ctx))
    decreases |children|
  {
    if children == [] then []
    else
      var last := |children| - 1;
      ChildResults(env, children[..last], ctx) + [Returned(env, env.drawChild(children[last], ctx))]
  }

  /** `.filter(isPaint)`: the paints among the mapped results, in order; null is never a paint. */
  function Paints<V>(env: Env<V>, results: seq<Option<V>>): seq<V>
    decreases |results|
  {
    if results == [] then []
    else
      var last := |results| - 1;
      var kept := if results[last].Some? && env.isPaint(results[last].value) then [results[last].value] else [];
      Paints(env, results[..last]) + kept
  }

  /** The positions of the results `Paints` keeps, in increasing order. */
  function PaintPositions<V>(env: Env<V>, results: seq<Option<V>>): (ix: seq<nat>)
    ensures |ix| == |Paints(env, results)|
    ensures forall k :: 0 <= k < |ix| ==> ix[k] < |results|
    decreases |results|
  {
    if results == [] then []
    else
      var last := |results| - 1;
      var kept := if results[last].Some? && env.isPaint(results[last].value) then [last] else [];
      PaintPositions(env, results[..last]) + kept
  }

  /** One `DrawChild` per child, in child order. */
  function ChildDraws<V>(children: seq<V>, ctx: DrawingContext<V>): (r: seq<Effect<V>>)
    ensures |r| == |children|
    ensures forall i :: 0 <= i < |children| ==> r[i] == DrawChild(children[i], ctx)
    decreases |children|
  {
    if children == [] then []
    else ChildDraws(children[..|children| - 1], ctx) + [DrawChild(children[|children| - 1], ctx)]
  }

  /** The `forEach`: one callback call per paint, each with the context's paint replaced. */
  function OnDraws<V>(callback: V, ctx: DrawingContext<V>, paints: seq<V>, props: V, node: DrawingNode<V>)
    : (r: seq<Effect<V>>)
    ensures |r| == |paints|
    ensures forall k :: 0 <= k < |paints| ==> r[k] == OnDraw(callback, ctx.(paint := paints[k]), props, node)
    decreases |paints|
  {
    if paints == [] then []
    else
      var last := |paints| - 1;
      OnDraws(callback, ctx, paints[..last], props, node) + [OnDraw(callback, ctx.(paint := paints[last]), props, node)]
  }

  /** Each position `PaintPositions` names holds the paint `Paints` keeps at the same index. */
  lemma {:induction false} PositionsHoldPaints<V>(env: Env<V>, results: seq<Option<V>>)
    ensures forall k :: 0 <= k < |PaintPositions(env, results)| ==>
      results[PaintPositions(env, results)[k]] == Some(Paints(env, results)[k])
    decreases |results|
  {
    if results != [] {
      var last := |results| - 1;
      var front := results[..last];
      PositionsHoldPaints(env, front);
      var paints, ix := Paints(env, front), PaintPositions(env, front);
      assert forall k :: 0 <= k < |ix| ==> results[ix[k]] == front[ix[k]];
      if results[last].Some? && env.isPaint(results[last].value) {
        var paints', ix' := paints + [results[last].value], ix + [last];
        assert Paints(env, results) == paints' && PaintPositions(env, results) == ix';
        assert forall k :: 0 <= k < |ix| ==> ix'[k] == ix[k] && paints'[k] == paints[k];
      } else {
        assert Paints(env, results) == paints && PaintPositions(env, results) == ix;
        assert forall k :: 0 <= k < |ix| ==> results[ix[k]] == Some(paints[k]);
      }
    }
  }

  /** The positions `PaintPositions` names are strictly increasing, so the paints keep child order. */
  lemma {:induction false} PositionsIncrease<V>(env: Env<V>, results: seq<Option<V>>)
    ensures forall k, m :: 0 <= k < m < |PaintPositions(env, results)| ==>
      PaintPositions(env, results)[k] < PaintPositions(env, results)[m]
    decreases |results|
  {
    if results != [] {
      var last := |results| - 1;
      var ix := PaintPositions(env, results[..last]);
      PositionsIncrease(env, results[..last]);
      if results[last].Some? && env.isPaint(results[last].value) {
        var ix' := ix + [last];
        assert PaintPositions(env, results) == ix';
        assert forall k :: 0 <= k < |ix| ==> ix'[k] == ix[k] < last == ix'[|ix|];
      } else {
        assert PaintPositions(env, results) == ix;
      }
    }
  }

  /** `PaintPositions` names exactly the results that are non-null paints. */
  lemma {:induction false} PositionsAreThePaints<V>(env: Env<V>, results: seq<Option<V>>)
    ensures forall j :: 0 <= j < |results| ==>
      (j in PaintPositions(env, results) <==> results[j].Some? && env.isPaint(results[j].value))
    decreases |results|
  {
    if results != [] {
      var last := |results| - 1;
      var front := results[..last];
      PositionsAreThePaints(env, front);
      var ix := PaintPositions(env, front);
      assert last !in ix by {
        forall k | 0 <= k < |ix| ensures ix[k] != last { }
      }
      assert forall j :: 0 <= j < last ==> results[j] == front[j];
      if results[last].Some? && env.isPaint(results[last].value) {
        assert PaintPositions(env, results) == ix + [last];
      } else {
        assert PaintPositions(env, results) == ix;
      }
    }
  }

  /** A child list none of whose results is a paint contributes no paint. */
  lemma {:induction false} NoPaints<V>(env: Env<V>, results: seq<Option<V>>)
    requires forall j :: 0 <= j < |results| ==> results[j].None? || !env.isPaint(results[j].value)
    ensures Paints(env, results) == []
    decreases |results|
  {
    if results != [] {
      NoPaints(env, results[..|results| - 1]);
    }
  }

  class DrawingNode<V> {
    var props: V
    /** The node's children, as the `Node` base class keeps them; a new node has none. */
    var children: seq<V>
    var onDraw: V
    var skipProcessing: bool
    var drawingType: Option<string>

    /** Stores the callback, the processing flag, the drawing type and the props as given. */
    constructor (onDraw: V, skipProcessing: bool, drawingType: Option<string>, props: V)
      ensures this.onDraw == onDraw && this.skipProcessing == skipProcessing
      ensures this.drawingType == drawingType && this.props == props
      ensures children == []
    {
      this.props := props;
      this.children := [];
      this.onDraw := onDraw;
      this.skipProcessing := skipProcessing;
      this.drawingType := drawingType;
    }

    /** The node as the reconciler describes it: its drawing type and its props, unchanged. */
    function Descriptor(): (d: NodeDescriptor<V>)
      reads this
      ensures d.drawingType == drawingType && d.props == props
    {
      NodeDescriptor(drawingType, props)
    }

    /** The paints the callback is called with, when paints are processed: the selected one first. */
    function PaintsToDraw(ctx: DrawingContext<V>, env: Env<V>): seq<V>
      reads this
    {
      var selected := env.selectPaint(ctx.paint, env.materialize(props));
      [selected] + Paints(env, ChildResults(env, children, ctx))
    }

    /** Everything `draw(ctx)` does, in order. */
    function Effects(ctx: DrawingContext<V>, env: Env<V>): seq<Effect<V>>
      reads this
    {
      var drawingProps := env.materialize(props);
      if skipProcessing then [OnDraw(onDraw, ctx, drawingProps, this)]
      else
        var selected := env.selectPaint(ctx.paint, drawingProps);
        [ProcessPaint(selected, ctx.opacity, drawingProps)]
        + ChildDraws(children, ctx)
        + OnDraws(onDraw, ctx, PaintsToDraw(ctx, env), drawingProps, this)
    }

    /**
     * `draw(ctx)`: with `skipProcessing` the callback runs once on the context
     * as given; otherwise the selected paint is processed, every child is
     * drawn, and the callback runs once per paint.
     */
    method Draw(ctx: DrawingContext<V>, env: Env<V>) returns (effects: seq<Effect<V>>)
      ensures effects == Effects(ctx, env)
    {
      var drawingProps := env.materialize(props);
      if skipProcessing {
        effects := [OnDraw(onDraw, ctx, drawingProps, this)];
        return;
      }
      var selected := env.selectPaint(ctx.paint, drawingProps);
      var returned, drawn := DrawChildren(ctx, env);
      var paints := FilterPaints(env, returned);
      var calls := CallOnDraw(ctx, [selected] + paints, drawingProps);
      effects := [ProcessPaint(selected, ctx.opacity, drawingProps)] + drawn + calls;
    }

    /** `this.children.map(...)`: draws each child in turn and keeps its result if truthy, else null. */
    method DrawChildren(ctx: DrawingContext<V>, env: Env<V>) returns (returned: seq<Option<V>>, effects: seq<Effect<V>>)
      ensures returned == ChildResults(env, children, ctx)
      ensures effects == ChildDraws(children, ctx)
    {
      returned, effects := [], [];
      var i := 0;
      while i < |children|
        invariant 0 <= i <= |children|
        invariant returned == ChildResults(env, children[..i], ctx)
        invariant effects == ChildDraws(children[..i], ctx)
      {
        var ret := env.drawChild(children[i], ctx);
        effects := effects + [DrawChild(children[i], ctx)];
        returned := returned + [if env.truthy(ret) then Some(ret) else None];
        assert children[..i + 1][..i] == children[..i];
        i := i + 1;
      }
      assert children[..i] == children;
    }

    /** The `forEach`: calls the callback once per paint, in order, with the context's paint replaced. */
    method CallOnDraw(ctx: DrawingContext<V>, paints: seq<V>, drawingProps: V) returns (effects: seq<Effect<V>>)
      ensures effects == OnDraws(onDraw, ctx, paints, drawingProps, this)
    {
      effects := [];
      var k := 0;
      while k < |paints|
        invariant 0 <= k <= |paints|
        invariant effects == OnDraws(onDraw, ctx, paints[..k], drawingProps, this)
      {
        effects := effects + [OnDraw(onDraw, ctx.(paint := paints[k]), drawingProps, this)];
        assert paints[..k + 1][..k] == paints[..k];
        k := k + 1;
      }
      assert paints[..k] == paints;
    }
  }

  /** `.filter(isPaint)`: keeps the non-null paints among the results, in order. */
  method FilterPaints<V>(env: Env<V>, returned: seq<Option<V>>) returns (paints: seq<V>)
    ensures paints == Paints(env, returned)
  {
    paints := [];
    var j := 0;
    while j < |returned|
      invariant 0 <= j <= |returned|
      invariant paints == Paints(env, returned[..j])
    {
      if returned[j].Some? && env.isPaint(returned[j].value) {
        paints := paints + [returned[j].value];
      }
      assert returned[..j + 1][..j] == returned[..j];
      j := j + 1;
    }
    assert returned[..j] == returned;
  }

  /**
   * With `skipProcessing`, `draw` calls the callback exactly once, with the
   * context unchanged, the materialised props and the node, and draws no child.
   */
  lemma SkipPath<V>(node: DrawingNode<V>, ctx: DrawingContext<V>, env: Env<V>)
    requires node.skipProcessing
    ensures var effects := node.Effects(ctx, env);
      && |effects| == 1
      && effects[0] == OnDraw(node.onDraw, ctx, env.materialize(node.props), node)
  {
  }

  /**
   * Without `skipProcessing`, `draw` processes the selected paint once, then
   * draws each child exactly once, in order, then calls the callback once for
   * each paint to draw, in order; every call gets the same props and node and
   * a context that differs from `ctx` at most in its paint.
   */
  lemma ProcessingPath<V>(node: DrawingNode<V>, ctx: DrawingContext<V>, env: Env<V>)
    requires !node.skipProcessing
    ensures var effects, props := node.Effects(ctx, env), env.materialize(node.props);
      var n, paints := |node.children|, node.PaintsToDraw(ctx, env);
      && |effects| == 1 + n + |paints|
      && effects[0] == ProcessPaint(paints[0], ctx.opacity, props)
      && (forall i :: 0 <= i < n ==> effects[1 + i] == DrawChild(node.children[i], ctx))
      && (forall k :: 0 <= k < |paints| ==> effects[1 + n + k] == OnDraw(node.onDraw, ctx.(paint := paints[k]), props, node))
  {
    var props, paints := env.materialize(node.props), node.PaintsToDraw(ctx, env);
    var head := [ProcessPaint(paints[0], ctx.opacity, props)];
    var draws, calls := ChildDraws(node.children, ctx), OnDraws(node.onDraw, ctx, paints, props, node);
    var effects := head + draws + calls;
    assert node.Effects(ctx, env) == effects;
    assert forall i :: 0 <= i < |draws| ==> effects[1 + i] == draws[i];
    assert forall k :: 0 <= k < |calls| ==> effects[1 + |draws| + k] == calls[k];
  }

  /**
   * The paints to draw are the selected paint, then one paint per child
   * whose `draw` returned a truthy paint, in child order: `PaintPositions`
   * names those children, in increasing order, and no other.
   */
  lemma ChildPaintsInOrder<V>(node: DrawingNode<V>, ctx: DrawingContext<V>, env: Env<V>)
    ensures var paints, n := node.PaintsToDraw(ctx, env), |node.children|;
      var ix := PaintPositions(env, ChildResults(env, node.children, ctx));
      && paints[0] == env.selectPaint(ctx.paint, env.materialize(node.props))
      && |paints| == 1 + |ix|
      && (forall k :: 0 <= k < |ix| ==>
            && env.drawChild(node.children[ix[k]], ctx) == paints[1 + k])
      && (forall k, m :: 0 <= k < m < |ix| ==> ix[k] < ix[m])
      && (forall j :: 0 <= j < n ==>
            (j in ix <==> && env.truthy(env.drawChild(node.children[j], ctx))
                          && env.isPaint(env.drawChild(node.children[j], ctx))))
  {
    var results := ChildResults(env, node.children, ctx);
    var paints := Paints(env, results);
    var ix := PaintPositions(env, results);
    assert node.PaintsToDraw(ctx, env) == [env.selectPaint(ctx.paint, env.materialize(node.props))] + paints;
    PositionsHoldPaints(env, results);
    assert forall k :: 0 <= k < |ix| ==> results[ix[k]] == Returned(env, env.drawChild(node.children[ix[k]], ctx));
    PositionsIncrease(env, results);
    PositionsAreThePaints(env, results);
  }

  /**
   * When no child returns a paint, the processing path calls the callback
   * exactly once, with the selected paint.
   */
  lemma OnlySelectedPaint<V>(node: DrawingNode<V>, ctx: DrawingContext<V>, env: Env<V>)
    requires !node.skipProcessing
    requires forall i :: 0 <= i < |node.children| ==>
      !env.truthy(env.drawChild(node.children[i], ctx)) || !env.isPaint(env.drawChild(node.children[i], ctx))
    ensures node.PaintsToDraw(ctx, env) == [env.selectPaint(ctx.paint, env.materialize(node.props))]
  {
    NoPaints(env, ChildResults(env, node.children, ctx));
  }
}
