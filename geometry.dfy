/**
 * Points and the two coordinate spaces of the shared drawing surface.
 * Pixel space is bounded by the canvas's width and height; unit space is the
 * unit square that segments travel in between peers. Coordinates are reals:
 * the conversions are exact here, where the browser rounds to doubles.
 */
module Geometry {

  datatype Point = Point(x: real, y: real)

  predicate InPixelBounds(p: Point, width: real, height: real) {
    0.0 <= p.x <= width && 0.0 <= p.y <= height
  }

  predicate InUnitSquare(u: Point) {
    0.0 <= u.x <= 1.0 && 0.0 <= u.y <= 1.0
  }

  /** Pixel space to unit space (`normalizeCoordinates`). */
  function Normalize(p: Point, width: real, height: real): (u: Point)
    requires width > 0.0 && height > 0.0
    ensures InUnitSquare(u) <==> InPixelBounds(p, width, height)
    ensures ToCanvasSpace(u, width, height) == p
  {
    Point(p.x / width, p.y / height)
  }

  /** Unit space to pixel space (`toCanvasSpace`). */
  function ToCanvasSpace(u: Point, width: real, height: real): (p: Point)
    requires width > 0.0 && height > 0.0
    ensures InPixelBounds(p, width, height) <==> InUnitSquare(u)
  {
    Point(u.x * width, u.y * height)
  }

  /** A point received from a peer and sent back out lands where it came from. */
  lemma RenderThenNormalize(u: Point, width: real, height: real)
    requires width > 0.0 && height > 0.0
    ensures Normalize(ToCanvasSpace(u, width, height), width, height) == u
  {
    var p := ToCanvasSpace(u, width, height);
    assert p == Point(u.x * width, u.y * height);
    ScaleCancels(u.x, width);
    ScaleCancels(u.y, height);
    assert Normalize(p, width, height) == Point((u.x * width) / width, (u.y * height) / height);
  }

  lemma ScaleCancels(a: real, w: real)
    requires w > 0.0
    ensures (a * w) / w == a
  {
  }

  /**
   * A point drawn on a sender's canvas and rendered on a receiver's canvas of
   * another size is scaled axis by axis by the ratio of the two sizes.
   */
  lemma AcrossCanvases(p: Point, w1: real, h1: real, w2: real, h2: real)
    requires w1 > 0.0 && h1 > 0.0 && w2 > 0.0 && h2 > 0.0
    ensures ToCanvasSpace(Normalize(p, w1, h1), w2, h2) == Point(p.x * (w2 / w1), p.y * (h2 / h1))
  {
  }

  /** An 800x600 sender and a 400x300 receiver: (400,300)-(500,300) arrives as (200,150)-(250,150). */
  lemma HalfSizeReceiver()
    ensures Normalize(Point(400.0, 300.0), 800.0, 600.0) == Point(0.5, 0.5)
    ensures Normalize(Point(500.0, 300.0), 800.0, 600.0) == Point(0.625, 0.5)
    ensures ToCanvasSpace(Normalize(Point(400.0, 300.0), 800.0, 600.0), 400.0, 300.0) == Point(200.0, 150.0)
    ensures ToCanvasSpace(Normalize(Point(500.0, 300.0), 800.0, 600.0), 400.0, 300.0) == Point(250.0, 150.0)
  {
  }
}
