# Rive-to-ThorVG renderer adapter, modelled in Dafny

The adapter sits between Rive's immediate-mode renderer interface and ThorVG's retained scene
graph. The engine builds paths (`moveTo`, `lineTo`, `cubicTo`, `close`, `addRenderPath`), sets
up paints (flat colours, strokes, linear and radial gradients built stop by stop), keeps a
transform stack (`save`, `restore`, `transform`) and issues `clipPath` and `drawPath` calls.
The adapter turns each `drawPath` into exactly one retained object pushed into a ThorVG scene.

The backend objects (`tvg::Shape`, `tvg::Fill`, `tvg::Scene`) are plain values here: a shape
is its commands, points, winding rule, fill, stroke, matrix and optional clip shape; a fill is
a gradient record; the scene is the ordered list of pushed items. `duplicate()` is value copy.
The adapter's own objects keep their form: `TvgRenderPath`, `TvgRenderPaint` and `RiveRenderer`
are classes whose methods update their fields.

Files and modules:

- `wrappers.dfy` (`Wrappers`): `Option`.
- `rive.dfy` (`Rive`): the engine's enumerations and its 2x3 affine matrix type, with the
  standard affine product.
- `tvg.dfy` (`Tvg`): the backend values and the `Scene` class.
- `paths.dfy` (`Paths`): `transformCoord`, the fill-rule mapping and the `TvgRenderPath` class.
- `paints.dfy` (`Paints`): colour decoding, the join and cap mappings, the gradient builders and
  their `make`, and the `TvgRenderPaint` class.
- `renderer.dfy` (`Renderer`): the transform stack and the clip slots as pure state machines,
  and the `RiveRenderer` class, whose methods are proved to follow them.

Points of the model worth knowing:

- The clip slots hold references to `TvgRenderPath` objects, as the source holds pointers to
  the path's own `tvg::Shape`. So `clipPath` changes the clip path's own matrix; `drawPath`
  whitens the clip paths' own fills; `resetClipPath` clears the geometry of the very path used
  as the clip. `DrawPath`'s contract gives the final shapes for every way the drawn path and
  the two clip paths can be the same object.
- The gradient builder pointer is a `BuilderSlot`. `Null` means no builder. `Live` means a
  builder is being filled. `Freed` means the pointer is left dangling after `completeGradient`
  deletes the builder. `addStop` and `completeGradient` dereference the pointer, so they
  require `Live`. The ghost counter `leakedBuilders` counts live builders that
  `linearGradient` or `radialGradient` overwrote without deleting them.
- `restore` reads the top of the stack unchecked, so it requires a non-empty stack. In the pure
  run of stack calls (`RunStack`), a restore on an empty stack is the error result `None`.
- Once a paint has been made a gradient, nothing clears `isGradient`. A later `color` call
  changes the stored colour, but `drawPath` keeps using the gradient.
- The background clip slot is filled once and never emptied.
- The composite clip set on a drawn path's shape stays on that shape. A later draw of the same
  path without a foreground clip still carries the old clip.
- `rive::Mat2D`'s default constructor gives the identity, so a new renderer starts from the
  identity transform.

## Model

| member | source | states |
|---|---|---|
| Rive.MulIdentity | MultiRiveRenderTest/RiveRenderer.cpp:190-192 | the identity is a two-sided unit of the affine product that `transform` composes with |
| Tvg.PointCountAppend | MultiRiveRenderTest/RiveRenderer.cpp:47 | the points consumed by appended commands add up, so appending a path keeps commands and points in step |
| Paths.ToTvgMatrixMul | MultiRiveRenderTest/RiveRenderer.cpp:226 | the backend matrix built from m[0] .. m[5] (the same layout at lines 19-25, 226, 243 and 247) composes like the rive matrix: the matrix of a product a * b is the row-major 3x3 product of the two matrices, and the rive identity becomes the backend identity |
| Paths.TransformCoord | MultiRiveRenderTest/RiveRenderer.cpp:18-28 | the image of a point under the backend matrix is the rive matrix's own point map (x*m[0] + y*m[2] + m[4], x*m[1] + y*m[3] + m[5]) |
| Paths.TransformCoordIdentity | MultiRiveRenderTest/RiveRenderer.cpp:18-28 | transforming a point by the identity leaves it unchanged |
| Paths.TransformCoordMul | MultiRiveRenderTest/RiveRenderer.cpp:18-28 | transforming by a product a * b is transforming by b and then by a |
| Paths.TransformAll | MultiRiveRenderTest/RiveRenderer.cpp:53-55 | the result has one point per input point, each the input point under `transformCoord` |
| Paths.FillRuleOf | MultiRiveRenderTest/RiveRenderer.cpp:7-16 | nonZero maps to Winding and evenOdd to EvenOdd, both directions |
| Paths.TvgRenderPath.constructor | MultiRiveRenderTest/RiveRenderer.h:27-30 | a new path owns an empty shape with no commands and no points |
| Paths.TvgRenderPath.Reset | MultiRiveRenderTest/RiveRenderer.cpp:30-32 | the commands and points are cleared; rule, fill, stroke, matrix and clip are kept |
| Paths.TvgRenderPath.AddRenderPath | MultiRiveRenderTest/RiveRenderer.cpp:34-56 | no change when the other path has no points or no commands; otherwise the other's commands are appended verbatim, the old points are kept, and each appended point is the other's point under `transformCoord`; commands and points stay in step |
| Paths.TvgRenderPath.FillRule | MultiRiveRenderTest/RiveRenderer.cpp:7-16 | only the winding rule changes, to the mapped rule |
| Paths.TvgRenderPath.MoveTo | MultiRiveRenderTest/RiveRenderer.cpp:58-60 | one MoveTo command and its point are appended, nothing else changes |
| Paths.TvgRenderPath.LineTo | MultiRiveRenderTest/RiveRenderer.cpp:62-64 | one LineTo command and its point are appended, nothing else changes |
| Paths.TvgRenderPath.CubicTo | MultiRiveRenderTest/RiveRenderer.cpp:66-68 | one CubicTo command and its three points, in argument order, are appended |
| Paths.TvgRenderPath.Close | MultiRiveRenderTest/RiveRenderer.cpp:70-72 | one Close command is appended and no point |
| Paints.DecodeColor | MultiRiveRenderTest/RiveRenderer.cpp:78-83 | red is bits 16-23, green bits 8-15, blue bits 0-7 and alpha bits 24-31 of the packed value; each channel is one byte |
| Paints.PackDecodeColor | MultiRiveRenderTest/RiveRenderer.cpp:78-83 | decoding loses nothing: packing the four channels back as ARGB gives the original value |
| Paints.DecodePackColor | MultiRiveRenderTest/RiveRenderer.cpp:78-83 | decoding is onto: every channel quadruple is the decoding of its packed value |
| Paints.DecodeColorSamples | MultiRiveRenderTest/RiveRenderer.cpp:78-83 | the decoded channels of four sample values |
| Paints.JoinOf | MultiRiveRenderTest/RiveRenderer.cpp:89-101 | round, bevel and miter map to Round, Bevel and Miter, both directions |
| Paints.CapOf | MultiRiveRenderTest/RiveRenderer.cpp:103-115 | butt, round and square map to Butt, Round and Square, both directions |
| Paints.DistanceUnique | MultiRiveRenderTest/RiveRenderer.cpp:143 | the radius is determined by the anchors: two non-negative values whose squares are the squared anchor distance are equal |
| Paints.DistanceToSelf | MultiRiveRenderTest/RiveRenderer.cpp:143 | identical anchors give radius 0 |
| Paints.BuildColorStops | MultiRiveRenderTest/RiveRenderer.cpp:146-155 | one backend colour stop per builder stop, in builder order, each keeping its position and with the channels `color` would decode from its packed value |
| Paints.MakeLinear | MultiRiveRenderTest/RiveRenderer.cpp:160-179 | the paint becomes a gradient paint with a linear gradient along the builder's anchors and the builder's stops; nothing else in the paint changes |
| Paints.MakeRadial | MultiRiveRenderTest/RiveRenderer.cpp:138-158 | the paint becomes a gradient paint with a radial gradient centred on the start anchor, with the anchor distance as radius and the builder's stops; nothing else in the paint changes |
| Paints.TvgRenderPaint.constructor | MultiRiveRenderTest/RiveRenderer.h:17-25 | the default paint (thickness 1, join Bevel, cap Butt, style fill, no gradient fill, not a gradient) and no builder |
| Paints.TvgRenderPaint.Style | MultiRiveRenderTest/RiveRenderer.cpp:74-76 | only the style changes |
| Paints.TvgRenderPaint.Color | MultiRiveRenderTest/RiveRenderer.cpp:78-83 | only the colour changes, to the decoded channels |
| Paints.TvgRenderPaint.Thickness | MultiRiveRenderTest/RiveRenderer.cpp:85-87 | only the thickness changes |
| Paints.TvgRenderPaint.Join | MultiRiveRenderTest/RiveRenderer.cpp:89-101 | only the join changes, to the mapped join |
| Paints.TvgRenderPaint.Cap | MultiRiveRenderTest/RiveRenderer.cpp:103-115 | only the cap changes, to the mapped cap |
| Paints.TvgRenderPaint.BlendMode | MultiRiveRenderTest/RiveRenderer.cpp:134-136 | nothing changes |
| Paints.TvgRenderPaint.LinearGradient | MultiRiveRenderTest/RiveRenderer.cpp:117-119 | a live linear builder holding the four anchors verbatim and no stops; a live builder it replaces is counted as leaked |
| Paints.TvgRenderPaint.RadialGradient | MultiRiveRenderTest/RiveRenderer.cpp:121-123 | a live radial builder holding the four anchors verbatim and no stops; a live builder it replaces is counted as leaked |
| Paints.TvgRenderPaint.AddStop | MultiRiveRenderTest/RiveRenderer.cpp:125-127 | requires a live builder; the stop, colour and position unchanged, goes at the end of its list |
| Paints.TvgRenderPaint.CompleteGradient | MultiRiveRenderTest/RiveRenderer.cpp:129-132 | requires a live builder; the paint gets the gradient its kind makes, with the builder's stops, and only its gradient fields change; the slot is left dangling |
| Renderer.RunStackAbove | MultiRiveRenderTest/RiveRenderer.cpp:181-192 | calls that never restore below a given depth do not fail, keep the saved transforms below that depth and change the stack height by saves minus restores |
| Renderer.SaveRestoreRoundTrip | MultiRiveRenderTest/RiveRenderer.cpp:181-188 | a save, any balanced calls and a restore give back the current transform and the saved stack from before the save |
| Renderer.TransformTwice | MultiRiveRenderTest/RiveRenderer.cpp:190-192 | transform(a) then transform(b) places every point where transform(a * b) does |
| Renderer.BackgroundIsFirstClip | MultiRiveRenderTest/RiveRenderer.cpp:239-249 | the background slot holds the first clipPath's path from empty slots and never changes once set |
| Renderer.ForegroundConsumed | MultiRiveRenderTest/RiveRenderer.cpp:220-224 | after a drawPath the foreground slot stays empty until the next clipPath |
| Renderer.ClipAfterBackground | MultiRiveRenderTest/RiveRenderer.cpp:245-248 | once the background is set, a clipPath puts its path in the foreground slot and changes nothing else |
| Renderer.Styled | MultiRiveRenderTest/RiveRenderer.cpp:201-218 | styling keeps geometry, rule, matrix and clip; a fill paint leaves the stroke alone; a stroke paint leaves the fill alone and sets a stroke whose cap, join and width are the paint's cap, join and thickness |
| Renderer.StyledBrush | MultiRiveRenderTest/RiveRenderer.cpp:201-218 | the brush set is the paint's gradient exactly when the paint is a gradient paint, and its flat colour otherwise |
| Renderer.RiveRenderer.constructor | MultiRiveRenderTest/RiveRenderer.h:98-106 | the given scene, both clip slots empty, the identity transform and an empty saved stack |
| Renderer.RiveRenderer.Save | MultiRiveRenderTest/RiveRenderer.cpp:181-183 | the stack follows SaveStep: the current transform is pushed |
| Renderer.RiveRenderer.Restore | MultiRiveRenderTest/RiveRenderer.cpp:185-188 | requires a saved transform; the stack follows RestoreStep: the top becomes current and is popped |
| Renderer.RiveRenderer.Transform | MultiRiveRenderTest/RiveRenderer.cpp:190-192 | the stack follows TransformStep: the matrix is composed on the right |
| Renderer.RiveRenderer.ClipPath | MultiRiveRenderTest/RiveRenderer.cpp:239-249 | the slots follow ClipStep; the path's shape gets the current transform at call time |
| Renderer.RiveRenderer.ResetClipPath | MultiRiveRenderTest/RiveRenderer.cpp:251-255 | the slots are unchanged; the foreground clip path, if any, loses its commands and points |
| Renderer.RiveRenderer.DrawPath | MultiRiveRenderTest/RiveRenderer.cpp:194-237 | the foreground slot is emptied; exactly one item is appended and the existing items keep their order; it is a group clipped by the background clip when one is set, the shape itself otherwise; the drawn shape is styled, clipped by the whitened foreground clip and carries the current transform, with the final shapes given for every aliasing of the three paths |

## Left out

- Floating point: coordinates, matrices, thicknesses and stop positions are `real`, so IEEE
  rounding in `transformCoord`, the matrix product and the distance is not modelled.
- `rive::Vec2D::distance` is foreign code. `CompleteGradient` takes its value as a parameter,
  required to be the Euclidean anchor distance. `DistanceUnique` shows the value is determined.
- `TvgRenderPath::AddRenderPath`: the other path's commands and points are read before the
  append. When a path is appended to itself, the source's raw pointers may be invalidated by the
  backend's reallocation; the model does not capture that.
- `TvgRenderPath::AddRenderPath` treats a null point or command buffer as "no points" or "no
  commands"; the backend returning a non-null buffer with zero entries is the same case here.
- Memory ownership (`unique_ptr`, `new`, `delete`) beyond the builder slot states; the
  gradient fills that `make` allocates and replaced fills never freed are not tracked.
- `m_DeriveTransform` is declared in `RiveRenderer` and never used, so it has no counterpart.
- `TvgRenderPath::buildShape` is declared and never defined.
- `ClipStep` for resetClipPath is the identity on the slots: the source clears the clip
  path's geometry and keeps the slot. The geometry change is in `ResetClipPath`'s contract.
- Rasterisation, compositing semantics and the blend modes: the scene is the list of pushed
  items, and a clip is recorded as the shape composited onto another one.
- Backend behaviour that the source relies on but that is not part of the source:
  - `Shape::reset` clears only commands and points;
  - `transform` replaces the matrix;
  - setting a flat fill or a gradient fill replaces the previous one;
  - `composite` replaces the previous clip target.
- Rive's `Mat2D::operator*` is defined in the rive runtime, not in this repository. `Rive.Mul` is the standard
  2x3 affine product, with the right operand applied first.
- The window, the viewer, the main loop, timing and animation playback are I/O, GUI and
  foreign code.
