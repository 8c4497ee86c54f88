/**
 * The animation engine's side of the drawing protocol: the enumerations it passes to the
 * renderer adapter and its 2x3 affine matrix. The engine itself is not part of this model;
 * only the values it hands over are.
 */
module Rive {

  /** rive::FillRule */
  datatype FillRule = NonZero | EvenOdd

  /** rive::StrokeJoin */
  datatype StrokeJoin = Miter | Round | Bevel

  /** rive::StrokeCap */
  datatype StrokeCap = Butt | Round | Square

  /** rive::RenderPaintStyle */
  datatype RenderPaintStyle = Stroke | Fill

  /** rive::BlendMode: accepted by the adapter and ignored. */
  datatype BlendMode =
    | SrcOver | Screen | Overlay | Darken | Lighten | ColorDodge | ColorBurn | HardLight
    | SoftLight | Difference | Exclusion | Multiply | Hue | Saturation | Color | Luminosity

  /**
   * rive::Mat2D, a 2x3 affine matrix stored as the six values m[0] .. m[5]:
   * xx = m[0], xy = m[1], yx = m[2], yy = m[3], tx = m[4], ty = m[5].
   * A point (x, y) is mapped to (x*xx + y*yx + tx, x*xy + y*yy + ty).
   */
  datatype Mat2D = Mat2D(xx: real, xy: real, yx: real, yy: real, tx: real, ty: real)

  /** The value of a default-constructed rive::Mat2D. */
  const Identity := Mat2D(1.0, 0.0, 0.0, 1.0, 0.0, 0.0)

  /**
   * The product a * b of two affine matrices: the affine map that applies b first and a
   * second. rive::Mat2D::operator* is not part of this model; this is the standard product.
   */
  function Mul(a: Mat2D, b: Mat2D): Mat2D
  {
    Mat2D(a.xx * b.xx + a.yx * b.xy, a.xy * b.xx + a.yy * b.xy,
          a.xx * b.yx + a.yx * b.yy, a.xy * b.yx + a.yy * b.yy,
          a.xx * b.tx + a.yx * b.ty + a.tx, a.xy * b.tx + a.yy * b.ty + a.ty)
  }

  /** The identity matrix is neutral on both sides of the product. */
  lemma MulIdentity(m: Mat2D)
    ensures Mul(m, Identity) == m && Mul(Identity, m) == m
  {
  }
}
