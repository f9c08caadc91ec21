/** Points and the projection of a single point through the rotation of the
    padded canvas (rotate_point). Coordinates are exact reals; cos and sin of
    the rotation are parameters, so no trigonometry is modelled. */
module Geometry {

  /** A point with real coordinates, as the 2-tuples rotate_point receives. */
  datatype Point = Point(x: real, y: real)

  /** An integer position, as rotate_point returns it after math.ceil. */
  datatype Pixel = Pixel(x: int, y: int)

  /** What rotate_point needs besides the point: the cosine and sine of the
      rotation, the width and height increments of the canvas, and the
      canvas size. */
  datatype Transform = Transform(cos: real, sin: real,
                                 widthIncrement: int, heightIncrement: int,
                                 newW: int, newH: int)

  /** math.ceil: the least integer not below r. */
  function Ceil(r: real): (n: int)
    ensures r <= n as real < r + 1.0
  {
    -((-r).Floor)
  }

  /** The point shifted into the padded canvas by half of each increment
      (true division, so an odd increment gives a half-pixel shift). */
  function Shifted(p: Point, tr: Transform): Point
  {
    Point(p.x + tr.widthIncrement as real / 2.0, p.y + tr.heightIncrement as real / 2.0)
  }

  /** The centre of the canvas. */
  function Centre(tr: Transform): Point
  {
    Point(tr.newW as real / 2.0, tr.newH as real / 2.0)
  }

  /** rotate_point before rounding: shift, re-centre and flip the y axis,
      rotate, then undo the centring and the flip. */
  function Projected(p: Point, tr: Transform): Point
  {
    var expanded := Shifted(p, tr);
    var translated := Point(expanded.x - tr.newW as real / 2.0, tr.newH as real / 2.0 - expanded.y);
    var rotated := Point(translated.x * tr.cos - translated.y * tr.sin,
                         translated.x * tr.sin + translated.y * tr.cos);
    Point(rotated.x + tr.newW as real / 2.0, -1.0 * rotated.y + tr.newH as real / 2.0)
  }

  /** rotate_point: each coordinate of the projected point rounded up. */
  function RotatePoint(p: Point, tr: Transform): (r: Pixel)
    ensures Projected(p, tr).x <= r.x as real < Projected(p, tr).x + 1.0
    ensures Projected(p, tr).y <= r.y as real < Projected(p, tr).y + 1.0
  {
    var q := Projected(p, tr);
    Pixel(Ceil(q.x), Ceil(q.y))
  }

  /** Reference definition: q turned about o, in image coordinates (rows grow
      downward), by the angle whose cosine is c and whose sine is s. */
  function Turn(q: Point, o: Point, c: real, s: real): Point
  {
    Point(o.x + c * (q.x - o.x) + s * (q.y - o.y),
          o.y - s * (q.x - o.x) + c * (q.y - o.y))
  }

  /** Squared distance between two points. */
  function Dist2(p: Point, q: Point): real
  {
    (p.x - q.x) * (p.x - q.x) + (p.y - q.y) * (p.y - q.y)
  }

  function Midpoint(p: Point, q: Point): Point
  {
    Point((p.x + q.x) / 2.0, (p.y + q.y) / 2.0)
  }

  /** The flip-rotate-flip chain of rotate_point is a turn of the shifted point
      about the canvas centre. */
  lemma ProjectedIsTurnAboutCentre(p: Point, tr: Transform)
    ensures Projected(p, tr) == Turn(Shifted(p, tr), Centre(tr), tr.cos, tr.sin)
  {
    var e := Shifted(p, tr);
    var o := Centre(tr);
    var dx, dy := e.x - o.x, e.y - o.y;
    assert (dx * tr.cos - (-dy) * tr.sin) == tr.cos * dx + tr.sin * dy;
    assert -1.0 * (dx * tr.sin + (-dy) * tr.cos) == -tr.sin * dx + tr.cos * dy;
  }

  /** Rotating the vector (dx, dy) by (c, s) on the unit circle keeps its
      squared length. */
  lemma RotationKeepsNorm(c: real, s: real, dx: real, dy: real)
    requires c * c + s * s == 1.0
    ensures (c * dx + s * dy) * (c * dx + s * dy) + (c * dy - s * dx) * (c * dy - s * dx)
            == dx * dx + dy * dy
  {
    assert (c * dx + s * dy) * (c * dx + s * dy)
           == c * c * (dx * dx) + 2.0 * (c * s) * (dx * dy) + s * s * (dy * dy);
    assert (c * dy - s * dx) * (c * dy - s * dx)
           == c * c * (dy * dy) - 2.0 * (c * s) * (dx * dy) + s * s * (dx * dx);
    assert c * c * (dx * dx) + s * s * (dx * dx) == (c * c + s * s) * (dx * dx);
    assert c * c * (dy * dy) + s * s * (dy * dy) == (c * c + s * s) * (dy * dy);
  }

  /** A turn with (c, s) on the unit circle keeps the distance to its centre. */
  lemma TurnKeepsDistance(q: Point, o: Point, c: real, s: real)
    requires c * c + s * s == 1.0
    ensures Dist2(Turn(q, o, c, s), o) == Dist2(q, o)
  {
    var dx, dy := q.x - o.x, q.y - o.y;
    var t := Turn(q, o, c, s);
    assert t.x - o.x == c * dx + s * dy;
    assert t.y - o.y == c * dy - s * dx;
    RotationKeepsNorm(c, s, dx, dy);
  }

  /** A turn with (c, s) on the unit circle keeps the distance between any
      two points. */
  lemma TurnIsRigid(p: Point, q: Point, o: Point, c: real, s: real)
    requires c * c + s * s == 1.0
    ensures Dist2(Turn(p, o, c, s), Turn(q, o, c, s)) == Dist2(p, q)
  {
    var dx, dy := p.x - q.x, p.y - q.y;
    var tp, tq := Turn(p, o, c, s), Turn(q, o, c, s);
    assert tp.x - tq.x == c * dx + s * dy;
    assert tp.y - tq.y == c * dy - s * dx;
    RotationKeepsNorm(c, s, dx, dy);
  }

  /** Hence the unrounded projection of rotate_point is rigid: it keeps the
      distance between any two points. */
  lemma ProjectedIsRigid(p: Point, q: Point, tr: Transform)
    requires tr.cos * tr.cos + tr.sin * tr.sin == 1.0
    ensures Dist2(Projected(p, tr), Projected(q, tr)) == Dist2(p, q)
  {
    ProjectedIsTurnAboutCentre(p, tr);
    ProjectedIsTurnAboutCentre(q, tr);
    TurnIsRigid(Shifted(p, tr), Shifted(q, tr), Centre(tr), tr.cos, tr.sin);
    assert Dist2(Shifted(p, tr), Shifted(q, tr)) == Dist2(p, q);
  }

  /** Turning back by the opposite angle (sine negated) undoes a turn. */
  lemma TurnBack(q: Point, o: Point, c: real, s: real)
    requires c * c + s * s == 1.0
    ensures Turn(Turn(q, o, c, s), o, c, -s) == q
  {
    var dx, dy := q.x - o.x, q.y - o.y;
    var t := Turn(q, o, c, s);
    assert t.x - o.x == c * dx + s * dy;
    assert t.y - o.y == c * dy - s * dx;
    calc {
      c * (t.x - o.x) + (-s) * (t.y - o.y);
      c * (c * dx + s * dy) - s * (c * dy - s * dx);
      (c * c + s * s) * dx;
      dx;
    }
    calc {
      -(-s) * (t.x - o.x) + c * (t.y - o.y);
      s * (c * dx + s * dy) + c * (c * dy - s * dx);
      (c * c + s * s) * dy;
      dy;
    }
  }

  /** Moving both the point and the centre by -d moves the turned point by -d. */
  lemma TurnCommutesWithShift(q: Point, o: Point, d: Point, c: real, s: real)
    ensures Turn(Point(q.x - d.x, q.y - d.y), Point(o.x - d.x, o.y - d.y), c, s)
            == Point(Turn(q, o, c, s).x - d.x, Turn(q, o, c, s).y - d.y)
  {
    var dx, dy := q.x - o.x, q.y - o.y;
    assert (q.x - d.x) - (o.x - d.x) == dx && (q.y - d.y) - (o.y - d.y) == dy;
    assert Turn(Point(q.x - d.x, q.y - d.y), Point(o.x - d.x, o.y - d.y), c, s)
           == Point((o.x - d.x) + c * dx + s * dy, (o.y - d.y) - s * dx + c * dy);
  }

  /** A turn is affine: it maps the midpoint of two points to the midpoint
      of their images. */
  lemma TurnKeepsMidpoints(a: Point, b: Point, o: Point, c: real, s: real)
    ensures Turn(Midpoint(a, b), o, c, s) == Midpoint(Turn(a, o, c, s), Turn(b, o, c, s))
  {
    TurnAtMidpoint(a, b, o, c, s);
    TurnWrittenOut(a, o, c, s);
    TurnWrittenOut(b, o, c, s);
    OffsetCombinationMean(o.x, c, s, a.x, b.x, o.x, a.y, b.y, o.y);
    OffsetCombinationMean(o.y, s, c, a.x, b.x, o.x, a.y, b.y, o.y);
  }

  /** A turn written out over the coordinates of the point and the centre. */
  lemma TurnWrittenOut(q: Point, o: Point, c: real, s: real)
    ensures Turn(q, o, c, s).x == o.x + c * (q.x - o.x) + s * (q.y - o.y)
    ensures Turn(q, o, c, s).y == o.y - s * (q.x - o.x) + c * (q.y - o.y)
  {
  }

  /** The turn of a midpoint, written out over the coordinates of its ends. */
  lemma TurnAtMidpoint(a: Point, b: Point, o: Point, c: real, s: real)
    ensures Turn(Midpoint(a, b), o, c, s).x
            == o.x + c * ((a.x + b.x) / 2.0 - o.x) + s * ((a.y + b.y) / 2.0 - o.y)
    ensures Turn(Midpoint(a, b), o, c, s).y
            == o.y - s * ((a.x + b.x) / 2.0 - o.x) + c * ((a.y + b.y) / 2.0 - o.y)
  {
    TurnWrittenOut(Midpoint(a, b), o, c, s);
  }

  /** An offset plus or minus a combination of two differences, taken at a
      midpoint, is the mean of its values at the two ends. */
  lemma OffsetCombinationMean(base: real, k: real, l: real, p1: real, p2: real, z: real, q1: real, q2: real, w: real)
    ensures base + k * ((p1 + p2) / 2.0 - z) + l * ((q1 + q2) / 2.0 - w)
            == ((base + k * (p1 - z) + l * (q1 - w)) + (base + k * (p2 - z) + l * (q2 - w))) / 2.0
    ensures base - k * ((p1 + p2) / 2.0 - z) + l * ((q1 + q2) / 2.0 - w)
            == ((base - k * (p1 - z) + l * (q1 - w)) + (base - k * (p2 - z) + l * (q2 - w))) / 2.0
  {
    ScaleOffsetMean(k, p1, p2, z);
    ScaleOffsetMean(l, q1, q2, w);
  }

  /** Scaling an offset from z distributes over the mean of two values. */
  lemma ScaleOffsetMean(k: real, p: real, q: real, z: real)
    ensures k * ((p + q) / 2.0 - z) == (k * (p - z) + k * (q - z)) / 2.0
  {
    assert (p + q) / 2.0 - z == ((p - z) + (q - z)) / 2.0;
  }

  /** The unrounded projection is affine too. */
  lemma ProjectedKeepsMidpoints(p: Point, q: Point, tr: Transform)
    ensures Projected(Midpoint(p, q), tr) == Midpoint(Projected(p, tr), Projected(q, tr))
  {
    ProjectedIsTurnAboutCentre(p, tr);
    ProjectedIsTurnAboutCentre(q, tr);
    ProjectedIsTurnAboutCentre(Midpoint(p, q), tr);
    assert Shifted(Midpoint(p, q), tr) == Midpoint(Shifted(p, tr), Shifted(q, tr));
    TurnKeepsMidpoints(Shifted(p, tr), Shifted(q, tr), Centre(tr), tr.cos, tr.sin);
  }

  /** A point whose shifted position is the canvas centre goes to the rounded
      canvas centre, whatever the angle. */
  lemma CentreIsFixed(p: Point, tr: Transform)
    requires Shifted(p, tr) == Centre(tr)
    ensures RotatePoint(p, tr) == Pixel(Ceil(tr.newW as real / 2.0), Ceil(tr.newH as real / 2.0))
  {
    ProjectedIsTurnAboutCentre(p, tr);
    var o := Centre(tr);
    assert Turn(o, o, tr.cos, tr.sin) == o by {
      assert o.x - o.x == 0.0 && o.y - o.y == 0.0;
    }
  }

  /** With no rotation (cos 1, sin 0) the projection is the shift alone. */
  lemma NoTurnIsShift(p: Point, tr: Transform)
    requires tr.cos == 1.0 && tr.sin == 0.0
    ensures RotatePoint(p, tr) == Pixel(Ceil(Shifted(p, tr).x), Ceil(Shifted(p, tr).y))
  {
    ProjectedIsTurnAboutCentre(p, tr);
  }

  /** With no rotation and no padding an integer point maps to itself. */
  lemma IdentityOnIntegerPoints(x: int, y: int, tr: Transform)
    requires tr.cos == 1.0 && tr.sin == 0.0
    requires tr.widthIncrement == 0 && tr.heightIncrement == 0
    ensures RotatePoint(Point(x as real, y as real), tr) == Pixel(x, y)
  {
    NoTurnIsShift(Point(x as real, y as real), tr);
  }
}
