/**
 * RiveRenderer: the stateful part of the adapter. It keeps the current transform and a stack of
 * saved ones, two clip slots (a background clip that stays once set and a foreground clip used
 * by the next draw only), and turns each drawPath into exactly one item pushed into the scene.
 * The transform stack and the clip slots are first given as pure state machines; the class's
 * methods are proved to follow them.
 */
module Renderer {
  import Rive
  import opened Tvg
  import opened Wrappers
  import opened Paths
  import opened Paints

  // ---------------------------------------------------------------------------------------
  // The transform stack

  /** The current transform and the saved ones, the most recent save last. */
  datatype TransformStack = TransformStack(current: Rive.Mat2D, saved: seq<Rive.Mat2D>)

  /** save: pushes a copy of the current transform. */
  function SaveStep(st: TransformStack): TransformStack
  {
    st.(saved := st.saved + [st.current])
  }

  /** restore: pops the most recent save into the current transform. */
  function RestoreStep(st: TransformStack): TransformStack
    requires |st.saved| > 0
  {
    TransformStack(st.saved[|st.saved| - 1], st.saved[..|st.saved| - 1])
  }

  /** transform: composes `m` on the right of the current transform. */
  function TransformStep(st: TransformStack, m: Rive.Mat2D): TransformStack
  {
    st.(current := Rive.Mul(st.current, m))
  }

  /** One call on the transform stack. */
  datatype StackOp = SaveOp | RestoreOp | TransformOp(m: Rive.Mat2D)

  /** One call, or None for a restore on an empty stack (std::stack::top on an empty stack). */
  function StackStep(st: TransformStack, op: StackOp): Option<TransformStack>
  {
    match op
    case SaveOp => Some(SaveStep(st))
    case RestoreOp => if |st.saved| == 0 then None else Some(RestoreStep(st))
    case TransformOp(m) => Some(TransformStep(st, m))
  }

  /** A sequence of calls, in order; None once a restore finds the stack empty. */
  function RunStack(st: TransformStack, ops: seq<StackOp>): Option<TransformStack>
    decreases |ops|
  {
    if ops == [] then Some(st)
    else match StackStep(st, ops[0])
      case None => None
      case Some(next) => RunStack(next, ops[1..])
  }

  /** Saves minus restores. */
  function Depth(ops: seq<StackOp>): int
    decreases |ops|
  {
    if ops == [] then 0
    else (match ops[0] case SaveOp => 1 case RestoreOp => -1 case TransformOp(_) => 0) + Depth(ops[1..])
  }

  /** Every restore is matched by an earlier save of the same sequence, and all saves are matched. */
  predicate Balanced(ops: seq<StackOp>)
  {
    && Depth(ops) == 0
    && forall k :: 0 <= k <= |ops| ==> Depth(ops[..k]) >= 0
  }

  /**
   * Running calls that never restore below `base` entries keeps the first `base` saved
   * transforms and leaves the stack Depth(ops) entries taller than it was.
   */
  lemma {:induction false} RunStackAbove(st: TransformStack, ops: seq<StackOp>, base: nat)
    requires base <= |st.saved|
    requires forall k :: 0 <= k <= |ops| ==> |st.saved| - base + Depth(ops[..k]) >= 0
    ensures RunStack(st, ops).Some?
    ensures |RunStack(st, ops).value.saved| == |st.saved| + Depth(ops)
    ensures base <= |RunStack(st, ops).value.saved| && RunStack(st, ops).value.saved[..base] == st.saved[..base]
    decreases |ops|
  {
    assert ops[..|ops|] == ops;
    if ops != [] {
      assert ops[..1] == [ops[0]];
      assert Depth(ops[..1]) == Depth([ops[0]]);
      assert Depth([ops[0]][1..]) == 0 by { assert [ops[0]][1..] == []; }
      var next := StackStep(st, ops[0]).value;
      forall k | 0 <= k <= |ops| - 1
        ensures |next.saved| - base + Depth(ops[1..][..k]) >= 0
      {
        assert ops[..k + 1][0] == ops[0] && ops[..k + 1][1..] == ops[1..][..k];
      }
      RunStackAbove(next, ops[1..], base);
    }
  }

  /**
   * A save, any balanced sequence of calls and a restore leave the current transform and the
   * saved stack exactly as they were before the save.
   */
  lemma SaveRestoreRoundTrip(st: TransformStack, ops: seq<StackOp>)
    requires Balanced(ops)
    ensures RunStack(st, [SaveOp] + ops + [RestoreOp]) == Some(st)
  {
    var st1 := SaveStep(st);
    RunStackAbove(st1, ops, |st1.saved|);
    var mid := RunStack(st1, ops).value;
    assert mid.saved == st1.saved;
    RunStackConcat(st1, ops, [RestoreOp]);
    assert ([SaveOp] + ops + [RestoreOp])[1..] == ops + [RestoreOp];
  }

  /** Running two sequences one after the other is running their concatenation. */
  lemma {:induction false} RunStackConcat(st: TransformStack, a: seq<StackOp>, b: seq<StackOp>)
    requires RunStack(st, a).Some?
    ensures RunStack(st, a + b) == RunStack(RunStack(st, a).value, b)
    decreases |a|
  {
    if a == [] {
      assert a + b == b;
    } else {
      assert (a + b)[0] == a[0] && (a + b)[1..] == a[1..] + b;
      RunStackConcat(StackStep(st, a[0]).value, a[1..], b);
    }
  }

  /**
   * transform(a) followed by transform(b) places every point where a single transform by the
   * product a * b places it.
   */
  lemma TransformTwice(st: TransformStack, a: Rive.Mat2D, b: Rive.Mat2D, pt: Point)
    ensures TransformCoord(pt, TransformStep(TransformStep(st, a), b).current)
         == TransformCoord(pt, TransformStep(st, Rive.Mul(a, b)).current)
  {
    TransformCoordMul(pt, Rive.Mul(st.current, a), b);
    TransformCoordMul(TransformCoord(pt, b), st.current, a);
    TransformCoordMul(pt, st.current, Rive.Mul(a, b));
    TransformCoordMul(pt, a, b);
  }

  // ---------------------------------------------------------------------------------------
  // The clip slots

  /** The background and the foreground clip slots, over any type of path reference. */
  datatype ClipSlots<T> = ClipSlots(background: Option<T>, foreground: Option<T>)

  /** The calls that touch the clip slots. resetClipPath leaves both slots as they are. */
  datatype ClipEvent<T> = ClipWith(path: T) | Draw | ResetClip

  /** clipPath fills the background slot when it is empty and the foreground slot otherwise; drawPath empties the foreground slot. */
  function ClipStep<T>(s: ClipSlots<T>, e: ClipEvent<T>): ClipSlots<T>
  {
    match e
    case ClipWith(p) => if s.background.None? then s.(background := Some(p)) else s.(foreground := Some(p))
    case Draw => s.(foreground := None)
    case ResetClip => s
  }

  /** The slots after a sequence of events, in order. */
  function RunClips<T>(s: ClipSlots<T>, es: seq<ClipEvent<T>>): ClipSlots<T>
    decreases |es|
  {
    if es == [] then s else ClipStep(RunClips(s, es[..|es| - 1]), es[|es| - 1])
  }

  /** The path of the first clipPath in a sequence of events, if there is one. */
  function FirstClip<T>(es: seq<ClipEvent<T>>): Option<T>
    decreases |es|
  {
    if es == [] then None else if es[0].ClipWith? then Some(es[0].path) else FirstClip(es[1..])
  }

  /**
   * The background slot is set once and never changes: starting from empty slots it holds the
   * path of the first clipPath; once set it keeps its path.
   */
  lemma {:induction false} BackgroundIsFirstClip<T>(s: ClipSlots<T>, es: seq<ClipEvent<T>>)
    ensures RunClips(s, es).background == if s.background.Some? then s.background else FirstClip(es)
    decreases |es|
  {
    if es != [] {
      var init := es[..|es| - 1];
      BackgroundIsFirstClip(s, init);
      FirstClipAppend(init, es[|es| - 1]);
      assert init + [es[|es| - 1]] == es;
    }
  }

  /** Appending an event changes the first clipPath only when there was none. */
  lemma {:induction false} FirstClipAppend<T>(es: seq<ClipEvent<T>>, e: ClipEvent<T>)
    ensures FirstClip(es + [e]) == if FirstClip(es).Some? then FirstClip(es) else if e.ClipWith? then Some(e.path) else None
    decreases |es|
  {
    if es == [] {
      assert es + [e] == [e] && [e][1..] == [];
    } else {
      assert (es + [e])[0] == es[0] && (es + [e])[1..] == es[1..] + [e];
      FirstClipAppend(es[1..], e);
    }
  }

  /**
   * After a drawPath the foreground slot stays empty until the next clipPath: a later drawPath
   * with no clipPath in between sees no foreground clip.
   */
  lemma {:induction false} ForegroundConsumed<T>(s: ClipSlots<T>, es: seq<ClipEvent<T>>)
    requires forall i :: 0 <= i < |es| ==> !es[i].ClipWith?
    ensures RunClips(s, [Draw] + es).foreground == None
    decreases |es|
  {
    if es != [] {
      var init := es[..|es| - 1];
      assert ([Draw] + es)[..|[Draw] + es| - 1] == [Draw] + init;
      ForegroundConsumed(s, init);
    }
  }

  /** Once a background clip is set, every clipPath fills the foreground slot with its path. */
  lemma ClipAfterBackground<T>(s: ClipSlots<T>, es: seq<ClipEvent<T>>, p: T)
    requires s.background.Some?
    ensures RunClips(s, es + [ClipWith(p)]) == RunClips(s, es).(foreground := Some(p))
  {
    BackgroundIsFirstClip(s, es);
    assert (es + [ClipWith(p)])[..|es|] == es;
  }

  // ---------------------------------------------------------------------------------------
  // Draw dispatch

  /** Opaque white, the fill forced onto a clip shape before it is used as a mask. */
  const White := Rgba(255, 255, 255, 255)

  /**
   * The fill and stroke branches of drawPath: a fill paint sets the shape's fill, a stroke paint sets the
   * stroke's cap, join, width and brush; the brush is the paint's gradient (duplicated) when it
   * is a gradient paint and its flat colour otherwise.
   */
  function Styled(s: Shape, p: TvgPaint): (r: Shape)
    requires PaintValid(p)
    ensures r.cmds == s.cmds && r.pts == s.pts && r.rule == s.rule && r.matrix == s.matrix && r.clip == s.clip
    ensures p.style == Rive.RenderPaintStyle.Fill ==> r.stroke == s.stroke
    ensures p.style == Rive.RenderPaintStyle.Stroke ==> r.fill == s.fill && r.stroke.Some?
    ensures p.style == Rive.RenderPaintStyle.Stroke ==>
      r.stroke.value.cap == p.cap && r.stroke.value.join == p.join && r.stroke.value.width == p.thickness
  {
    var brush := if p.isGradient then Gradient(p.gradientFill.value) else Solid(p.color);
    match p.style
    case Fill => s.(fill := brush)
    case Stroke => s.(stroke := Some(Stroke(p.cap, p.join, p.thickness, brush)))
  }

  /** The brush a styled shape carries is the paint's gradient exactly when the paint is a gradient paint. */
  lemma StyledBrush(s: Shape, p: TvgPaint)
    requires PaintValid(p)
    ensures var r := Styled(s, p);
      var brush := if p.style == Rive.RenderPaintStyle.Fill then r.fill else r.stroke.value.brush;
      (brush.Gradient? <==> p.isGradient)
      && (p.isGradient ==> brush == Gradient(p.gradientFill.value))
      && (!p.isGradient ==> brush == Solid(p.color))
  {
  }

  /** A clip shape as it is used as a mask: its fill forced to opaque white, all else kept. */
  function Whitened(s: Shape): Shape
  {
    s.(fill := Solid(White))
  }

  /** The model of RiveRenderer. */
  class RiveRenderer {
    const scene: Scene
    var clip: TvgRenderPath?
    var bgClip: TvgRenderPath?
    var transform: Rive.Mat2D
    var saved: seq<Rive.Mat2D>

    /** The transform stack as a value. */
    function Stack(): TransformStack
      reads this
    {
      TransformStack(transform, saved)
    }

    /** The two clip slots as a value. */
    function Slots(): ClipSlots<TvgRenderPath?>
      reads this
    {
      ClipSlots(if bgClip == null then None else Some(bgClip), if clip == null then None else Some(clip))
    }

    /** A new renderer draws into the given scene, with both clip slots empty, an identity transform and nothing saved. */
    constructor (scene: Scene)
      ensures this.scene == scene
      ensures clip == null && bgClip == null
      ensures transform == Rive.Identity && saved == []
    {
      this.scene := scene;
      clip := null;
      bgClip := null;
      transform := Rive.Identity;
      saved := [];
    }

    /** save */
    method Save()
      modifies this`saved
      ensures Stack() == SaveStep(old(Stack()))
    {
      saved := saved + [transform];
    }

    /** restore: std::stack::top is undefined on an empty stack, so a save must come first. */
    method Restore()
      requires |saved| > 0
      modifies this`transform, this`saved
      ensures Stack() == RestoreStep(old(Stack()))
    {
      transform := saved[|saved| - 1];
      saved := saved[..|saved| - 1];
    }

    /** transform: the new matrix is composed on the right. */
    method Transform(m: Rive.Mat2D)
      modifies this`transform
      ensures Stack() == TransformStep(old(Stack()), m)
    {
      transform := Rive.Mul(transform, m);
    }

    /**
     * clipPath: the slot takes a reference to the path itself, and the path's shape gets the
     * current transform now, not at draw time.
     */
    method ClipPath(path: TvgRenderPath)
      modifies this`clip, this`bgClip, path
      ensures Slots() == ClipStep(old(Slots()), ClipWith(path))
      ensures path.shape == old(path.shape).(matrix := ToTvgMatrix(transform))
    {
      if bgClip == null {
        bgClip := path;
        bgClip.shape := bgClip.shape.(matrix := ToTvgMatrix(transform));
      } else {
        clip := path;
        clip.shape := clip.shape.(matrix := ToTvgMatrix(transform));
      }
    }

    /**
     * resetClipPath: clears the geometry of the foreground clip's path, if there is one, and
     * leaves both slots as they are.
     */
    method ResetClipPath()
      modifies if clip == null then {} else {clip}
      ensures Slots() == ClipStep(old(Slots()), ResetClip)
      ensures clip != null ==> clip.shape == old(clip.shape).(cmds := [], pts := [])
    {
      if clip != null {
        clip.Reset();
      }
    }

    /**
     * drawPath: styles the path's own shape from the paint, composites a white copy of the
     * foreground clip onto it and empties that slot, gives it the current transform, and pushes
     * one copy into the scene, wrapped in a group clipped by a white copy of the background clip
     * when there is one. The clip paths and the drawn path may be the same object; the shapes
     * below are exactly those produced by the source's order of steps.
     */
    method DrawPath(path: TvgRenderPath, paint: TvgRenderPaint)
      requires paint.Valid()
      modifies this`clip, path, scene, if clip == null then {} else {clip}, if bgClip == null then {} else {bgClip}
      ensures Slots() == ClipStep(old(Slots()), Draw)
      ensures path.shape.cmds == old(path.shape.cmds) && path.shape.pts == old(path.shape.pts)
      ensures path.shape.matrix == ToTvgMatrix(transform)
      ensures scene.items == old(scene.items) + [if bgClip == null then Drawn(path.shape) else Group(path.shape, bgClip.shape)]
      ensures
        var fgPath := old(clip);
        var s1 := Styled(old(path.shape), paint.paint);
        var fg := if fgPath == null then None else Some(Whitened(if fgPath == path then s1 else old(fgPath.shape)));
        var s2 := if fg.None? then s1 else (if fgPath == path then fg.value else s1).(clip := fg);
        var s3 := s2.(matrix := ToTvgMatrix(transform));
        var bg := if bgClip == null then None
                  else Some(Whitened(if bgClip == path then s3 else if bgClip == fgPath then fg.value else old(bgClip.shape)));
        && path.shape == (if bgClip == path then bg.value else s3)
        && (fgPath != null && fgPath != path && fgPath != bgClip ==> fgPath.shape == fg.value)
        && (bgClip != null && bgClip != path ==> bgClip.shape == bg.value)
    {
      path.shape := Styled(path.shape, paint.paint);
      if clip != null {
        clip.shape := Whitened(clip.shape);
        path.shape := path.shape.(clip := Some(clip.shape));
        clip := null;
      }
      path.shape := path.shape.(matrix := ToTvgMatrix(transform));
      if bgClip != null {
        bgClip.shape := Whitened(bgClip.shape);
        scene.Push(Group(path.shape, bgClip.shape));
      } else {
        scene.Push(Drawn(path.shape));
      }
    }
  }
}
