/** The rotated rectangle record and the decomposition of an axis-aligned
    (x, y, w, h) rectangle into its centre and four corners, each carried
    through rotate_point. */
module RotatedRects {
  import opened Geometry

  /** An axis-aligned rectangle: top-left corner, width and height. */
  datatype Rect = Rect(x: real, y: real, w: real, h: real)

  /** The record built for each input rectangle. width and height are those
      of the input rectangle, angle is the normalised angle in degrees, and
      boxPoints holds the four projected corners (the box_points field, which
      get_box_points returns). */
  datatype RotatedRect = RotatedRect(center: Pixel, width: real, height: real,
                                     angle: int, boxPoints: seq<Pixel>)

  /** The centre of the rectangle. */
  function RectCentre(r: Rect): (c: Point)
    ensures c == Midpoint(Corners(r)[0], Corners(r)[2])
    ensures c == Midpoint(Corners(r)[1], Corners(r)[3])
  {
    Point(r.x + r.w / 2.0, r.y + r.h / 2.0)
  }

  /** The corners in the order top-left, top-right, bottom-right, bottom-left:
      opposite edges are the vectors (w, 0) and (0, h). */
  function Corners(r: Rect): (v: seq<Point>)
    ensures |v| == 4 && v[0] == Point(r.x, r.y)
    ensures v[1].x - v[0].x == r.w && v[1].y == v[0].y
    ensures v[2].x - v[3].x == r.w && v[2].y == v[3].y
    ensures v[3].y - v[0].y == r.h && v[3].x == v[0].x
    ensures v[2].y - v[1].y == r.h && v[2].x == v[1].x
  {
    [Point(r.x, r.y), Point(r.x + r.w, r.y), Point(r.x + r.w, r.y + r.h), Point(r.x, r.y + r.h)]
  }

  /** The RotatedRect for one input rectangle. */
  function RotateRect(r: Rect, angle: int, tr: Transform): (rr: RotatedRect)
    ensures rr.width == r.w && rr.height == r.h && rr.angle == angle
    ensures rr.center == RotatePoint(RectCentre(r), tr)
    ensures |rr.boxPoints| == 4
    ensures forall i :: 0 <= i < 4 ==> rr.boxPoints[i] == RotatePoint(Corners(r)[i], tr)
  {
    var v := Corners(r);
    RotatedRect(RotatePoint(RectCentre(r), tr), r.w, r.h, angle,
                [RotatePoint(v[0], tr), RotatePoint(v[1], tr), RotatePoint(v[2], tr), RotatePoint(v[3], tr)])
  }

  /** Each coordinate of the projected centre is, up to rounding, the mean of
      the projected ends of either diagonal: twice the centre differs from
      the sum of the two corners by at most one. */
  lemma CentreBetweenDiagonalCorners(r: Rect, angle: int, tr: Transform, i: nat)
    requires i < 2
    ensures var rr := RotateRect(r, angle, tr);
            var a, b := rr.boxPoints[i], rr.boxPoints[i + 2];
            -1 <= 2 * rr.center.x - (a.x + b.x) <= 1 &&
            -1 <= 2 * rr.center.y - (a.y + b.y) <= 1
  {
    var v := Corners(r);
    ProjectedKeepsMidpoints(v[i], v[i + 2], tr);
  }

  /** With no rotation and no padding an integer rectangle keeps its corners,
      in the order top-left, top-right, bottom-right, bottom-left. */
  lemma UnrotatedRectKeepsCorners(x: int, y: int, w: int, h: int, angle: int, tr: Transform)
    requires tr.cos == 1.0 && tr.sin == 0.0
    requires tr.widthIncrement == 0 && tr.heightIncrement == 0
    ensures RotateRect(Rect(x as real, y as real, w as real, h as real), angle, tr).boxPoints
            == [Pixel(x, y), Pixel(x + w, y), Pixel(x + w, y + h), Pixel(x, y + h)]
  {
    IdentityOnIntegerPoints(x, y, tr);
    IdentityOnIntegerPoints(x + w, y, tr);
    IdentityOnIntegerPoints(x + w, y + h, tr);
    IdentityOnIntegerPoints(x, y + h, tr);
  }
}
