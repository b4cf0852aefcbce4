/**
 * Coordinate mapping between the display space of a canvas (scaled to a fixed width)
 * and the source space of the image it shows (natural pixels), and the drawing decision
 * of a canvas: the base image, plus a landmark icon centred on a display-space point.
 *
 * Arithmetic is over `real`: the IEEE-754 rounding of the browser's numbers is not modelled.
 */
module Geometry {
  import opened Wrappers

  /** Every canvas is drawn 320 display pixels wide (controls.js, line 74). */
  const CanvasWidth: real := 320.0

  /** The landmark icon is drawn in a 20 x 20 box (controls.js, line 89). */
  const IconSize: real := 20.0

  datatype Point = Point(x: real, y: real)

  /** An axis-aligned rectangle as passed to `drawImage`: left, top, width, height. */
  datatype Box = Box(left: real, top: real, width: real, height: real)

  function Centre(b: Box): Point {
    Point(b.left + b.width / 2.0, b.top + b.height / 2.0)
  }

  /** The natural size of a loaded image together with the width it is displayed at. */
  datatype DisplayGeometry = DisplayGeometry(naturalWidth: real, naturalHeight: real, displayWidth: real) {

    predicate Valid() {
      naturalWidth > 0.0 && naturalHeight > 0.0 && displayWidth > 0.0
    }

    /** The display height keeps the image's aspect ratio (controls.js, line 80). */
    function DisplayHeight(): (h: real)
      requires Valid()
      ensures h > 0.0
      ensures h / displayWidth == naturalHeight / naturalWidth
    {
      naturalHeight * displayWidth / naturalWidth
    }

    /** The scale factor from display pixels to source pixels. */
    function Scale(): (s: real)
      requires Valid()
      ensures s > 0.0
    {
      naturalWidth / displayWidth
    }
  }

  /** Display space to source space: the position stored for a pointer event (lines 106-107). */
  function ToSource(g: DisplayGeometry, p: Point): Point
    requires g.Valid()
  {
    Point(p.x * g.naturalWidth / g.displayWidth, p.y * g.naturalHeight / g.DisplayHeight())
  }

  /** Source space to display space: where a stored point is drawn (lines 95-96). */
  function ToDisplay(g: DisplayGeometry, p: Point): Point
    requires g.Valid()
  {
    Point(p.x * g.displayWidth / g.naturalWidth, p.y * g.DisplayHeight() / g.naturalHeight)
  }

  /** Both axes are scaled by the same factor, so the aspect ratio is preserved. */
  lemma ToSourceIsUniform(g: DisplayGeometry, p: Point)
    requires g.Valid()
    ensures ToSource(g, p) == Point(p.x * g.Scale(), p.y * g.Scale())
  {
    var h := g.DisplayHeight();
    calc {
      p.y * g.naturalHeight / h;
      { assert h * g.naturalWidth == g.naturalHeight * g.displayWidth; }
      p.y * g.naturalWidth / g.displayWidth;
    }
  }

  lemma ToDisplayIsUniform(g: DisplayGeometry, p: Point)
    requires g.Valid()
    ensures ToDisplay(g, p) == Point(p.x / g.Scale(), p.y / g.Scale())
  {
  }

  /** Drawing a stored point and reading it back from the pointer yields the point again. */
  lemma SourceRoundTrip(g: DisplayGeometry, p: Point)
    requires g.Valid()
    ensures ToSource(g, ToDisplay(g, p)) == p
  {
    ToSourceIsUniform(g, ToDisplay(g, p));
    ToDisplayIsUniform(g, p);
  }

  /** Storing a pointer position and drawing it again puts it under the pointer. */
  lemma DisplayRoundTrip(g: DisplayGeometry, p: Point)
    requires g.Valid()
    ensures ToDisplay(g, ToSource(g, p)) == p
  {
    ToSourceIsUniform(g, p);
    ToDisplayIsUniform(g, ToSource(g, p));
  }

  /** What a canvas shows after a redraw: the base image scaled to the canvas, and maybe the icon. */
  datatype Frame = Frame(base: Box, icon: Option<Box>)

  /**
   * The redraw of a canvas (lines 85-91): clear, draw the base image over the whole
   * canvas, then the icon centred on `pos` when there is a position.
   */
  function DrawIconCanvas(g: DisplayGeometry, pos: Option<Point>): (f: Frame)
    requires g.Valid()
    ensures f.base == Box(0.0, 0.0, g.displayWidth, g.DisplayHeight())
    ensures f.icon.Some? <==> pos.Some?
    ensures pos.Some? ==> && f.icon.value.width == IconSize && f.icon.value.height == IconSize
                          && Centre(f.icon.value) == pos.value
  {
    var base := Box(0.0, 0.0, g.displayWidth, g.DisplayHeight());
    match pos
    case None => Frame(base, None)
    case Some(p) => Frame(base, Some(Box(p.x - IconSize / 2.0, p.y - IconSize / 2.0, IconSize, IconSize)))
  }

  /** The redraw from a stored source-space position (lines 92-101). */
  function DrawIconImageCoords(g: DisplayGeometry, pos: Option<Point>): (f: Frame)
    requires g.Valid()
    ensures f.base == Box(0.0, 0.0, g.displayWidth, g.DisplayHeight())
    ensures f.icon.Some? <==> pos.Some?
    ensures pos.Some? ==> && f.icon.value.width == IconSize && f.icon.value.height == IconSize
                          && Centre(f.icon.value) == ToDisplay(g, pos.value)
  {
    match pos
    case None => DrawIconCanvas(g, None)
    case Some(p) => DrawIconCanvas(g, Some(ToDisplay(g, p)))
  }

  /**
   * The marker drawn under the pointer during a placement is exactly the marker a later
   * redraw from the stored source-space position shows.
   */
  lemma RedrawMatchesPlacement(g: DisplayGeometry, pointer: Point)
    requires g.Valid()
    ensures DrawIconImageCoords(g, Some(ToSource(g, pointer))) == DrawIconCanvas(g, Some(pointer))
  {
    DisplayRoundTrip(g, pointer);
  }

  /** The icon's centre, mapped back to source space, is the stored point. */
  lemma IconCentreIsStoredPoint(g: DisplayGeometry, p: Point)
    requires g.Valid()
    ensures ToSource(g, Centre(DrawIconImageCoords(g, Some(p)).icon.value)) == p
  {
    SourceRoundTrip(g, p);
  }
}
