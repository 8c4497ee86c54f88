/**
 * The retained-mode backend (ThorVG) as plain values. Only what the renderer adapter sets or
 * reads is kept: a shape's path commands and points, winding rule, fill, stroke, matrix and
 * clip target, the gradient fills, and the scene as the ordered list of pushed items.
 * tvg::Shape::duplicate() is value copy, which is what passing a datatype value is.
 */
module Tvg {
  import opened Wrappers

  /** tvg::Point */
  datatype Point = Point(x: real, y: real)

  /** tvg::Matrix, a 3x3 matrix in row-major order. */
  datatype Matrix = Matrix(e11: real, e12: real, e13: real,
                           e21: real, e22: real, e23: real,
                           e31: real, e32: real, e33: real)

  const IdentityMatrix := Matrix(1.0, 0.0, 0.0, 0.0, 1.0, 0.0, 0.0, 0.0, 1.0)

  /** The row-major product a * b of two 3x3 matrices: entry (i, j) is row i of a times column j of b. */
  function MatMul3(a: Matrix, b: Matrix): Matrix
  {
    Matrix(a.e11 * b.e11 + a.e12 * b.e21 + a.e13 * b.e31,
           a.e11 * b.e12 + a.e12 * b.e22 + a.e13 * b.e32,
           a.e11 * b.e13 + a.e12 * b.e23 + a.e13 * b.e33,
           a.e21 * b.e11 + a.e22 * b.e21 + a.e23 * b.e31,
           a.e21 * b.e12 + a.e22 * b.e22 + a.e23 * b.e32,
           a.e21 * b.e13 + a.e22 * b.e23 + a.e23 * b.e33,
           a.e31 * b.e11 + a.e32 * b.e21 + a.e33 * b.e31,
           a.e31 * b.e12 + a.e32 * b.e22 + a.e33 * b.e32,
           a.e31 * b.e13 + a.e32 * b.e23 + a.e33 * b.e33)
  }

  /** tvg::FillRule */
  datatype FillRule = Winding | EvenOdd

  /** tvg::StrokeJoin */
  datatype StrokeJoin = Bevel | Round | Miter

  /** tvg::StrokeCap */
  datatype StrokeCap = Square | Round | Butt

  /** tvg::PathCommand */
  datatype PathCommand = Close | MoveTo | LineTo | CubicTo

  /** The number of points a command consumes from the point buffer. */
  function PointsOf(cmd: PathCommand): nat
  {
    match cmd
    case Close => 0
    case MoveTo => 1
    case LineTo => 1
    case CubicTo => 3
  }

  /** The number of points a command sequence consumes. */
  function PointCount(cmds: seq<PathCommand>): nat
  {
    if cmds == [] then 0 else PointCount(cmds[..|cmds| - 1]) + PointsOf(cmds[|cmds| - 1])
  }

  /** Appending commands adds their point counts, so appending keeps commands and points in step. */
  lemma {:induction false} PointCountAppend(a: seq<PathCommand>, b: seq<PathCommand>)
    ensures PointCount(a + b) == PointCount(a) + PointCount(b)
    decreases |b|
  {
    if b == [] {
      assert a + b == a;
    } else {
      var n := |b| - 1;
      assert (a + b)[..|a + b| - 1] == a + b[..n];
      assert (a + b)[|a + b| - 1] == b[n];
      PointCountAppend(a, b[..n]);
    }
  }

  /** An 8-bit-per-channel colour, in the order the backend's setters take it. */
  datatype Rgba = Rgba(r: bv8, g: bv8, b: bv8, a: bv8)

  /** tvg::Fill::ColorStop: an offset and a colour. */
  datatype ColorStop = ColorStop(offset: real, r: bv8, g: bv8, b: bv8, a: bv8)

  /** tvg::LinearGradient (its axis) or tvg::RadialGradient (its centre and radius), with the colour stops. */
  datatype Fill =
    | LinearGradient(x1: real, y1: real, x2: real, y2: real, stops: seq<ColorStop>)
    | RadialGradient(cx: real, cy: real, radius: real, stops: seq<ColorStop>)

  /**
   * What a shape's interior or outline is painted with. Setting a flat colour or a gradient
   * replaces whatever was set before; Unset is the backend's default for a new shape.
   */
  datatype Brush = Unset | Solid(color: Rgba) | Gradient(fill: Fill)

  /** The stroke settings the adapter writes, always all four together. */
  datatype Stroke = Stroke(cap: StrokeCap, join: StrokeJoin, width: real, brush: Brush)

  /**
   * tvg::Shape. `stroke` is None while no stroke has been configured (the backend's defaults);
   * `clip` is the shape composited onto it with CompositeMethod::ClipPath, if any.
   */
  datatype Shape = Shape(
    cmds: seq<PathCommand>,
    pts: seq<Point>,
    rule: FillRule,
    fill: Brush,
    stroke: Option<Stroke>,
    matrix: Matrix,
    clip: Option<Shape>)

  /** The shape tvg::Shape::gen() returns: no geometry and the backend's defaults. */
  const EmptyShape := Shape([], [], Winding, Unset, None, IdentityMatrix, None)

  /**
   * What the adapter pushes into the scene: a duplicate of a drawn shape, or a tvg::Scene
   * holding a duplicate of the drawn shape and composited with a duplicate of a clip shape.
   */
  datatype Item = Drawn(shape: Shape) | Group(member: Shape, clip: Shape)

  /** tvg::Scene: the ordered list of paints pushed into it. Later items draw on top. */
  class Scene {
    var items: seq<Item>

    constructor ()
      ensures items == []
    {
      items := [];
    }

    method Push(item: Item)
      modifies this
      ensures items == old(items) + [item]
    {
      items := items + [item];
    }
  }
}
