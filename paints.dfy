/**
 * The paint object of the adapter (TvgRenderPaint) and its gradient builders: style state, the
 * packed-colour decoding shared by flat colours and gradient stops, and the construction of a
 * backend gradient fill from the accumulated stops.
 */
module Paints {
  import Rive
  import opened Tvg
  import opened Wrappers

  /**
   * The colour a packed 32-bit value stands for: bits 16-23 are red, 8-15 green, 0-7 blue and
   * 24-31 alpha. TvgRenderPaint::color stores the channels in this order.
   */
  function DecodeColor(value: bv32): (c: Rgba)
    ensures c.r as bv32 == value / 0x1_0000 % 0x100 && c.g as bv32 == value / 0x100 % 0x100
    ensures c.b as bv32 == value % 0x100 && c.a as bv32 == value / 0x100_0000
  {
    Rgba(((value >> 16) & 255) as bv8, ((value >> 8) & 255) as bv8,
         ((value >> 0) & 255) as bv8, ((value >> 24) & 255) as bv8)
  }

  /** The packed value of a colour, alpha in the highest byte: the layout the engine uses. */
  function PackColor(c: Rgba): bv32
  {
    ((c.a as bv32) << 24) | ((c.r as bv32) << 16) | ((c.g as bv32) << 8) | (c.b as bv32)
  }

  /** Decoding loses nothing: every packed value is the packing of its decoded channels. */
  lemma PackDecodeColor(value: bv32)
    ensures PackColor(DecodeColor(value)) == value
  {
  }

  /** Each colour has exactly one packed form, so DecodeColor is a bijection. */
  lemma DecodePackColor(c: Rgba)
    ensures DecodeColor(PackColor(c)) == c
  {
  }

  /** The decoding of three sample values and of 0xAABBCCDD. */
  lemma DecodeColorSamples()
    ensures DecodeColor(0xAABB_CCDD) == Rgba(0xBB, 0xCC, 0xDD, 0xAA)
    ensures DecodeColor(0x0000_0000) == Rgba(0, 0, 0, 0)
    ensures DecodeColor(0xFFFF_FFFF) == Rgba(0xFF, 0xFF, 0xFF, 0xFF)
    ensures DecodeColor(0x8040_2010) == Rgba(0x40, 0x20, 0x10, 0x80)
  {
  }

  /** TvgRenderPaint::join's mapping, one backend join per engine join. */
  function JoinOf(value: Rive.StrokeJoin): (r: StrokeJoin)
    ensures value == Rive.StrokeJoin.Round <==> r == StrokeJoin.Round
    ensures value == Rive.StrokeJoin.Bevel <==> r == StrokeJoin.Bevel
    ensures value == Rive.StrokeJoin.Miter <==> r == StrokeJoin.Miter
  {
    match value
    case Round => StrokeJoin.Round
    case Bevel => StrokeJoin.Bevel
    case Miter => StrokeJoin.Miter
  }

  /** TvgRenderPaint::cap's mapping, one backend cap per engine cap. */
  function CapOf(value: Rive.StrokeCap): (r: StrokeCap)
    ensures value == Rive.StrokeCap.Butt <==> r == StrokeCap.Butt
    ensures value == Rive.StrokeCap.Round <==> r == StrokeCap.Round
    ensures value == Rive.StrokeCap.Square <==> r == StrokeCap.Square
  {
    match value
    case Butt => StrokeCap.Butt
    case Round => StrokeCap.Round
    case Square => StrokeCap.Square
  }

  /** TvgGradientStop: a packed colour and a stop position, stored as given. */
  datatype TvgGradientStop = TvgGradientStop(color: bv32, stop: real)

  /** Which of the two builder classes an object is. */
  datatype GradientKind = Linear | Radial

  /** TvgGradientBuilder: the two anchors and the stops accumulated so far, in order. */
  datatype TvgGradientBuilder = TvgGradientBuilder(
    kind: GradientKind, sx: real, sy: real, ex: real, ey: real, stops: seq<TvgGradientStop>)

  /**
   * The paint's builder pointer: null, pointing to a live builder, or left pointing to a builder
   * that completeGradient has already deleted.
   */
  datatype BuilderSlot = Null | Live(gradient: TvgGradientBuilder) | Freed

  /** TvgPaint: the style state a paint hands to drawPath. */
  datatype TvgPaint = TvgPaint(
    color: Rgba,
    thickness: real,
    gradientFill: Option<Fill>,
    join: StrokeJoin,
    cap: StrokeCap,
    style: Rive.RenderPaintStyle,
    isGradient: bool)

  /**
   * The state of a new paint: the declared defaults, and a zero colour, since
   * rive::makeRenderPaint value-initialises the object with `new TvgRenderPaint()`.
   */
  const DefaultPaint := TvgPaint(Rgba(0, 0, 0, 0), 1.0, None, StrokeJoin.Bevel, StrokeCap.Butt,
                                 Rive.RenderPaintStyle.Fill, false)

  /** A gradient paint always has the fill that make attached to it. */
  predicate PaintValid(p: TvgPaint)
  {
    p.isGradient ==> p.gradientFill.Some?
  }

  /** The channels of a backend colour stop, as a colour. */
  function StopColor(s: ColorStop): Rgba
  {
    Rgba(s.r, s.g, s.b, s.a)
  }

  /**
   * The backend colour stops `cs` render the builder stops `stops`: one per stop, in the same
   * order, each with the stop's position unchanged and its colour decoded as DecodeColor does.
   */
  predicate StopsMatch(cs: seq<ColorStop>, stops: seq<TvgGradientStop>)
  {
    && |cs| == |stops|
    && forall i :: 0 <= i < |cs| ==> cs[i].offset == stops[i].stop && StopColor(cs[i]) == DecodeColor(stops[i].color)
  }

  /** `radius` is the Euclidean distance between (sx, sy) and (ex, ey). */
  predicate IsDistance(radius: real, sx: real, sy: real, ex: real, ey: real)
  {
    radius >= 0.0 && radius * radius == (ex - sx) * (ex - sx) + (ey - sy) * (ey - sy)
  }

  /** There is only one such distance, so a radius passed as IsDistance is fully determined. */
  lemma DistanceUnique(r1: real, r2: real, sx: real, sy: real, ex: real, ey: real)
    requires IsDistance(r1, sx, sy, ex, ey) && IsDistance(r2, sx, sy, ex, ey)
    ensures r1 == r2
  {
    if r1 < r2 {
      SquareLess(r1, r2);
    } else if r2 < r1 {
      SquareLess(r2, r1);
    }
  }

  /** Squaring is strictly increasing on the non-negative reals. */
  lemma SquareLess(a: real, b: real)
    requires 0.0 <= a < b
    ensures a * a < b * b
  {
    assert (b - a) * a >= 0.0;
    assert (b - a) * b > 0.0;
    assert b * b - a * a == (b - a) * a + (b - a) * b;
  }

  /** Identical anchors give a radial gradient of radius zero. */
  lemma DistanceToSelf(r: real, x: real, y: real)
    requires IsDistance(r, x, y, x, y)
    ensures r == 0.0
  {
  }

  /**
   * The colour stops that make hands to the backend: the loop both builders run, decoding each
   * packed colour with its own shifts and masks.
   */
  method BuildColorStops(stops: seq<TvgGradientStop>) returns (colorStops: seq<ColorStop>)
    ensures StopsMatch(colorStops, stops)
  {
    var numStops := |stops|;
    var buffer := new ColorStop[numStops];
    for i := 0 to numStops
      invariant forall k :: 0 <= k < i ==>
        buffer[k].offset == stops[k].stop && StopColor(buffer[k]) == DecodeColor(stops[k].color)
    {
      var value := stops[i].color;
      var r := ((value >> 16) & 255) as bv8;
      var g := ((value >> 8) & 255) as bv8;
      var b := ((value >> 0) & 255) as bv8;
      var a := ((value >> 24) & 255) as bv8;
      buffer[i] := ColorStop(stops[i].stop, r, g, b, a);
    }
    colorStops := buffer[..];
  }

  /**
   * TvgLinearGradientBuilder::make: marks the paint as a gradient and attaches a linear gradient
   * along the builder's anchors with one colour stop per builder stop. Nothing else changes.
   */
  method MakeLinear(builder: TvgGradientBuilder, paint: TvgPaint) returns (p: TvgPaint)
    ensures p.isGradient && p.gradientFill.Some?
    ensures p == paint.(isGradient := true, gradientFill := p.gradientFill)
    ensures var f := p.gradientFill.value;
      && f == LinearGradient(builder.sx, builder.sy, builder.ex, builder.ey, f.stops)
      && StopsMatch(f.stops, builder.stops)
  {
    var colorStops := BuildColorStops(builder.stops);
    p := paint.(isGradient := true,
                gradientFill := Some(LinearGradient(builder.sx, builder.sy, builder.ex, builder.ey, colorStops)));
  }

  /**
   * TvgRadialGradientBuilder::make: marks the paint as a gradient and attaches a radial gradient
   * centred on the start anchor, whose radius `radius` is the distance to the end anchor, with
   * one colour stop per builder stop. Nothing else changes.
   */
  method MakeRadial(builder: TvgGradientBuilder, paint: TvgPaint, radius: real) returns (p: TvgPaint)
    requires IsDistance(radius, builder.sx, builder.sy, builder.ex, builder.ey)
    ensures p.isGradient && p.gradientFill.Some?
    ensures p == paint.(isGradient := true, gradientFill := p.gradientFill)
    ensures var f := p.gradientFill.value;
      && f == RadialGradient(builder.sx, builder.sy, radius, f.stops)
      && StopsMatch(f.stops, builder.stops)
  {
    var colorStops := BuildColorStops(builder.stops);
    p := paint.(isGradient := true, gradientFill := Some(RadialGradient(builder.sx, builder.sy, radius, colorStops)));
  }

  /**
   * TvgRenderPaint: the paint state and the gradient builder pointer. The ghost counter records
   * how many live builders were overwritten without being deleted.
   */
  class TvgRenderPaint {
    var paint: TvgPaint
    var builder: BuilderSlot
    ghost var leakedBuilders: nat

    ghost predicate Valid()
      reads this
    {
      PaintValid(paint)
    }

    /** A new paint has the default style and no gradient builder. */
    constructor ()
      ensures Valid()
      ensures paint == DefaultPaint && builder == Null && leakedBuilders == 0
    {
      paint := DefaultPaint;
      builder := Null;
      leakedBuilders := 0;
    }

    /** style: fill or stroke. */
    method Style(style: Rive.RenderPaintStyle)
      requires Valid()
      modifies this`paint
      ensures Valid()
      ensures paint == old(paint).(style := style)
    {
      paint := paint.(style := style);
    }

    /** color: the four channels of the packed value; a gradient paint stays a gradient paint. */
    method Color(value: bv32)
      requires Valid()
      modifies this`paint
      ensures Valid()
      ensures paint == old(paint).(color := DecodeColor(value))
    {
      paint := paint.(color := DecodeColor(value));
    }

    /** thickness: the stroke width. */
    method Thickness(value: real)
      requires Valid()
      modifies this`paint
      ensures Valid()
      ensures paint == old(paint).(thickness := value)
    {
      paint := paint.(thickness := value);
    }

    /** join: the backend join for the engine's join. */
    method Join(value: Rive.StrokeJoin)
      requires Valid()
      modifies this`paint
      ensures Valid()
      ensures paint == old(paint).(join := JoinOf(value))
    {
      paint := paint.(join := JoinOf(value));
    }

    /** cap: the backend cap for the engine's cap. */
    method Cap(value: Rive.StrokeCap)
      requires Valid()
      modifies this`paint
      ensures Valid()
      ensures paint == old(paint).(cap := CapOf(value))
    {
      paint := paint.(cap := CapOf(value));
    }

    /** blendMode: accepted and ignored; the backend composites with normal alpha only. */
    method BlendMode(value: Rive.BlendMode)
      ensures unchanged(this)
    {
    }

    /**
     * linearGradient: a new linear builder with these anchors and no stops. A live builder it
     * replaces is not deleted.
     */
    method LinearGradient(sx: real, sy: real, ex: real, ey: real)
      modifies this`builder, this`leakedBuilders
      ensures builder == Live(TvgGradientBuilder(Linear, sx, sy, ex, ey, []))
      ensures leakedBuilders == old(leakedBuilders) + if old(builder).Live? then 1 else 0
    {
      if builder.Live? {
        leakedBuilders := leakedBuilders + 1;
      }
      builder := Live(TvgGradientBuilder(Linear, sx, sy, ex, ey, []));
    }

    /**
     * radialGradient: a new radial builder with these anchors and no stops. A live builder it
     * replaces is not deleted.
     */
    method RadialGradient(sx: real, sy: real, ex: real, ey: real)
      modifies this`builder, this`leakedBuilders
      ensures builder == Live(TvgGradientBuilder(Radial, sx, sy, ex, ey, []))
      ensures leakedBuilders == old(leakedBuilders) + if old(builder).Live? then 1 else 0
    {
      if builder.Live? {
        leakedBuilders := leakedBuilders + 1;
      }
      builder := Live(TvgGradientBuilder(Radial, sx, sy, ex, ey, []));
    }

    /** addStop: one more stop at the end of the live builder's list. */
    method AddStop(color: bv32, stop: real)
      requires builder.Live?
      modifies this`builder
      ensures builder.Live?
      ensures builder.gradient == old(builder.gradient).(stops := old(builder.gradient.stops) + [TvgGradientStop(color, stop)])
    {
      var b := builder.gradient;
      builder := Live(b.(stops := b.stops + [TvgGradientStop(color, stop)]));
    }

    /**
     * completeGradient: the live builder makes the paint's gradient fill, then is deleted; the
     * pointer keeps its value, so the slot is left Freed. `radius` is the value of
     * rive::Vec2D::distance between the anchors, used by a radial builder.
     */
    method CompleteGradient(radius: real)
      requires Valid()
      requires builder.Live?
      requires builder.gradient.kind == Radial ==>
        IsDistance(radius, builder.gradient.sx, builder.gradient.sy, builder.gradient.ex, builder.gradient.ey)
      modifies this`paint, this`builder
      ensures Valid()
      ensures builder == Freed
      ensures paint.isGradient && paint.gradientFill.Some?
      ensures paint == old(paint).(isGradient := true, gradientFill := paint.gradientFill)
      ensures var b, f := old(builder.gradient), paint.gradientFill.value;
        && StopsMatch(f.stops, b.stops)
        && (b.kind == Linear ==> f == Tvg.LinearGradient(b.sx, b.sy, b.ex, b.ey, f.stops))
        && (b.kind == Radial ==> f == Tvg.RadialGradient(b.sx, b.sy, radius, f.stops))
    {
      var b := builder.gradient;
      match b.kind {
        case Linear =>
          paint := MakeLinear(b, paint);
        case Radial =>
          paint := MakeRadial(b, paint, radius);
      }
      builder := Freed;
    }
  }
}
