/**
 * The path object of the adapter (TvgRenderPath): it owns one backend shape and forwards the
 * engine's path-construction calls to it. Also the coordinate transform used when one path is
 * appended to another, and the winding-rule mapping.
 */
module Paths {
  import Rive
  import opened Tvg

  /**
   * The backend matrix for a rive matrix: the six coefficients laid out as
   * { m[0], m[2], m[4], m[1], m[3], m[5], 0, 0, 1 }. The same layout is used by
   * transformCoord, by drawPath and by clipPath.
   */
  function ToTvgMatrix(m: Rive.Mat2D): (t: Matrix)
    ensures t.e31 == 0.0 && t.e32 == 0.0 && t.e33 == 1.0
    ensures t.e11 == m.xx && t.e21 == m.xy && t.e12 == m.yx && t.e22 == m.yy
    ensures t.e13 == m.tx && t.e23 == m.ty
  {
    Matrix(m.xx, m.yx, m.tx, m.xy, m.yy, m.ty, 0.0, 0.0, 1.0)
  }

  /**
   * The backend matrix composes like the rive matrix: the matrix of a product is the row-major
   * product of the matrices, and the rive identity becomes the backend identity.
   */
  lemma ToTvgMatrixMul(a: Rive.Mat2D, b: Rive.Mat2D)
    ensures ToTvgMatrix(Rive.Mul(a, b)) == MatMul3(ToTvgMatrix(a), ToTvgMatrix(b))
    ensures ToTvgMatrix(Rive.Identity) == IdentityMatrix
  {
    var ta, tb, ab := ToTvgMatrix(a), ToTvgMatrix(b), Rive.Mul(a, b);
    var c := MatMul3(ta, tb);
    assert c.e11 == ab.xx && c.e12 == ab.yx && c.e13 == ab.tx;
    assert c.e21 == ab.xy && c.e22 == ab.yy && c.e23 == ab.ty;
    assert c.e31 == 0.0 && c.e32 == 0.0 && c.e33 == 1.0;
  }

  /**
   * transformCoord: the image of a point under the backend matrix built from `m`, which is the
   * point map of the rive matrix itself.
   */
  function TransformCoord(pt: Point, m: Rive.Mat2D): (r: Point)
    ensures r == Point(pt.x * m.xx + pt.y * m.yx + m.tx, pt.x * m.xy + pt.y * m.yy + m.ty)
  {
    var t := ToTvgMatrix(m);
    Point(pt.x * t.e11 + pt.y * t.e12 + t.e13, pt.x * t.e21 + pt.y * t.e22 + t.e23)
  }

  /** The identity matrix leaves every point where it is. */
  lemma TransformCoordIdentity(pt: Point)
    ensures TransformCoord(pt, Rive.Identity) == pt
  {
  }

  /**
   * Transforming by a product is transforming by the right factor and then by the left one:
   * the composition that RiveRenderer::transform relies on when it multiplies on the right.
   */
  lemma TransformCoordMul(pt: Point, a: Rive.Mat2D, b: Rive.Mat2D)
    ensures TransformCoord(pt, Rive.Mul(a, b)) == TransformCoord(TransformCoord(pt, b), a)
  {
    TransformCoordMulX(pt, a, b);
    TransformCoordMulY(pt, a, b);
  }

  /** The x coordinate of TransformCoordMul. */
  lemma TransformCoordMulX(pt: Point, a: Rive.Mat2D, b: Rive.Mat2D)
    ensures TransformCoord(pt, Rive.Mul(a, b)).x == TransformCoord(TransformCoord(pt, b), a).x
  {
    var q, ab := TransformCoord(pt, b), Rive.Mul(a, b);
    AffineRow(pt.x, pt.y, a.xx, a.yx, a.tx, b.xx, b.xy, b.yx, b.yy, b.tx, b.ty, q.x, q.y, ab.xx, ab.yx, ab.tx);
  }

  /** The y coordinate of TransformCoordMul. */
  lemma TransformCoordMulY(pt: Point, a: Rive.Mat2D, b: Rive.Mat2D)
    ensures TransformCoord(pt, Rive.Mul(a, b)).y == TransformCoord(TransformCoord(pt, b), a).y
  {
    var q, ab := TransformCoord(pt, b), Rive.Mul(a, b);
    AffineRow(pt.x, pt.y, a.xy, a.yy, a.ty, b.xx, b.xy, b.yx, b.yy, b.tx, b.ty, q.x, q.y, ab.xy, ab.yy, ab.ty);
  }

  /**
   * One output coordinate of a composed affine map, regrouped: with (u, v) the image of (x, y)
   * under the inner map b and (p1, p2, p3) the row of the product, the coordinate under the
   * product equals the outer row (a1, a2, a3) applied to (u, v).
   */
  lemma AffineRow(x: real, y: real, a1: real, a2: real, a3: real,
                  b1: real, b2: real, b3: real, b4: real, b5: real, b6: real, u: real, v: real,
                  p1: real, p2: real, p3: real)
    requires u == x * b1 + y * b3 + b5 && v == x * b2 + y * b4 + b6
    requires p1 == a1 * b1 + a2 * b2 && p2 == a1 * b3 + a2 * b4 && p3 == a1 * b5 + a2 * b6 + a3
    ensures x * p1 + y * p2 + p3 == u * a1 + v * a2 + a3
  {
  }

  /** Every point of `pts`, transformed by `m`, in the same order. */
  function TransformAll(pts: seq<Point>, m: Rive.Mat2D): (r: seq<Point>)
    ensures |r| == |pts|
    ensures forall i :: 0 <= i < |pts| ==> r[i] == TransformCoord(pts[i], m)
  {
    seq(|pts|, i requires 0 <= i < |pts| => TransformCoord(pts[i], m))
  }

  /** TvgRenderPath::fillRule's mapping: nonZero is Winding and evenOdd is EvenOdd. */
  function FillRuleOf(value: Rive.FillRule): (r: FillRule)
    ensures value == Rive.NonZero <==> r == Winding
    ensures value == Rive.EvenOdd <==> r == EvenOdd
  {
    match value
    case EvenOdd => EvenOdd
    case NonZero => Winding
  }

  /** TvgRenderPath: a handle on one backend shape, whose commands and points stay in step. */
  class TvgRenderPath {
    var shape: Shape

    /** Every command has the points it consumes: the backend's lock-step invariant. */
    ghost predicate Valid()
      reads this
    {
      PointCount(shape.cmds) == |shape.pts|
    }

    /** A new path owns a newly generated, empty shape. */
    constructor ()
      ensures Valid()
      ensures shape == EmptyShape
    {
      shape := EmptyShape;
    }

    /** reset: clears the commands and points; every other property of the shape is kept. */
    method Reset()
      modifies this
      ensures Valid()
      ensures shape == old(shape).(cmds := [], pts := [])
    {
      shape := shape.(cmds := [], pts := []);
    }

    /**
     * addRenderPath: appends the other path's commands and points, then transforms by `m` only
     * the points from the old point count onwards. Nothing happens when the other path has no
     * points or no commands. `other` may be this very path: its geometry is read first.
     */
    method AddRenderPath(other: TvgRenderPath, m: Rive.Mat2D)
      requires Valid() && other.Valid()
      modifies this
      ensures Valid()
      ensures var src := old(other.shape);
        if |src.pts| == 0 || |src.cmds| == 0 then shape == old(shape)
        else shape == old(shape).(cmds := old(shape.cmds) + src.cmds,
                                  pts := old(shape.pts) + TransformAll(src.pts, m))
    {
      var pts0 := other.shape.pts;
      if |pts0| == 0 {
        return;
      }
      var cmds0 := other.shape.cmds;
      if |cmds0| == 0 {
        return;
      }
      var count2 := |shape.pts|;
      PointCountAppend(shape.cmds, cmds0);
      shape := shape.(cmds := shape.cmds + cmds0, pts := shape.pts + pts0);
      var pts3 := shape.pts;
      var i := count2;
      while i < |pts3|
        invariant count2 <= i <= |pts3| == count2 + |pts0|
        invariant pts3[..count2] == old(shape.pts)
        invariant forall k :: count2 <= k < i ==> pts3[k] == TransformCoord(pts0[k - count2], m)
        invariant forall k :: i <= k < |pts3| ==> pts3[k] == pts0[k - count2]
      {
        pts3 := pts3[i := TransformCoord(pts3[i], m)];
        i := i + 1;
      }
      assert pts3 == old(shape.pts) + TransformAll(pts0, m);
      shape := shape.(pts := pts3);
    }

    /** fillRule: sets the winding rule only. */
    method FillRule(value: Rive.FillRule)
      modifies this
      ensures Valid() == old(Valid())
      ensures shape == old(shape).(rule := FillRuleOf(value))
    {
      shape := shape.(rule := FillRuleOf(value));
    }

    /** moveTo: one MoveTo command and its end point. */
    method MoveTo(x: real, y: real)
      requires Valid()
      modifies this
      ensures Valid()
      ensures shape == old(shape).(cmds := old(shape.cmds) + [PathCommand.MoveTo], pts := old(shape.pts) + [Point(x, y)])
    {
      PointCountAppend(shape.cmds, [PathCommand.MoveTo]);
      shape := shape.(cmds := shape.cmds + [PathCommand.MoveTo], pts := shape.pts + [Point(x, y)]);
    }

    /** lineTo: one LineTo command and its end point. */
    method LineTo(x: real, y: real)
      requires Valid()
      modifies this
      ensures Valid()
      ensures shape == old(shape).(cmds := old(shape.cmds) + [PathCommand.LineTo], pts := old(shape.pts) + [Point(x, y)])
    {
      PointCountAppend(shape.cmds, [PathCommand.LineTo]);
      shape := shape.(cmds := shape.cmds + [PathCommand.LineTo], pts := shape.pts + [Point(x, y)]);
    }

    /** cubicTo: one CubicTo command and its two control points and end point, in that order. */
    method CubicTo(ox: real, oy: real, ix: real, iy: real, x: real, y: real)
      requires Valid()
      modifies this
      ensures Valid()
      ensures shape == old(shape).(cmds := old(shape.cmds) + [PathCommand.CubicTo],
                                   pts := old(shape.pts) + [Point(ox, oy), Point(ix, iy), Point(x, y)])
    {
      PointCountAppend(shape.cmds, [PathCommand.CubicTo]);
      shape := shape.(cmds := shape.cmds + [PathCommand.CubicTo],
                      pts := shape.pts + [Point(ox, oy), Point(ix, iy), Point(x, y)]);
    }

    /** close: one Close command, which consumes no point. */
    method Close()
      requires Valid()
      modifies this
      ensures Valid()
      ensures shape == old(shape).(cmds := old(shape.cmds) + [PathCommand.Close])
    {
      PointCountAppend(shape.cmds, [PathCommand.Close]);
      shape := shape.(cmds := shape.cmds + [PathCommand.Close]);
    }
  }
}
