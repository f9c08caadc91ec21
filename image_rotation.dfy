/** random_rotation: argument checks, the choice and normalisation of the
    angle, the embedding of the image in a zero-filled canvas, and the
    projection of the points and rectangles. The trigonometric sizing of the
    canvas and the affine warp of the pixels are outside the model: the
    cosine, sine and canvas size come from the parameter `trig`. */
module ImageRotation {
  import opened Geometry
  import opened RotatedRects

  /** One 8-bit channel value. */
  newtype byte = b: int | 0 <= b < 256

  /** The rotation_angle argument: a fixed int, or a (lo, hi) pair to draw from. */
  datatype AngleSpec = Fixed(angle: int) | Range(lo: int, hi: int)

  /** The ways random_rotation fails. */
  datatype Error =
    | MalformedPoint(index: nat)    // points[index] is not a 2-tuple
    | MalformedRect(index: nat)     // rects[index] is not a 4-tuple
    | EmptyRange(lo: int, hi: int)  // random.randint(lo, hi) with lo > hi

  datatype Option<T> = None | Some(value: T)

  datatype Result<T> = Ok(value: T) | Err(error: Error)

  /** What the trigonometric part computes from the normalised angle and the
      image height and width: cos and sin of the radian, and the canvas size. */
  datatype Frame = Frame(cos: real, sin: real, newW: nat, newH: nat)

  /** What random_rotation returns. `expanded` is the zero-padded canvas
      before the affine warp. */
  datatype Rotation = Rotation(angle: int, transform: Transform, expanded: array3<byte>,
                               points: seq<Pixel>, rects: seq<RotatedRect>)

  // ---------------------------------------------------------------- angle

  /** The angle before normalisation: the int itself, or the value `draw`
      that random.randint returned, which lies in [lo, hi]. */
  function ChooseAngle(spec: AngleSpec, draw: int): (r: Result<int>)
    requires spec.Range? && spec.lo <= spec.hi ==> spec.lo <= draw <= spec.hi
    ensures spec.Fixed? ==> r == Ok(spec.angle)
    ensures spec.Range? ==> (r.Ok? <==> spec.lo <= spec.hi)
    ensures spec.Range? && r.Ok? ==> spec.lo <= r.value <= spec.hi
    ensures spec.Range? && r.Err? ==> r.error == EmptyRange(spec.lo, spec.hi)
  {
    match spec
    case Fixed(a) => Ok(a)
    case Range(lo, hi) => if lo <= hi then Ok(draw) else Err(EmptyRange(lo, hi))
  }

  /** Brings an angle into [0, 360): add 360 while negative, then take the
      remainder. The result is congruent to the input modulo 360. */
  method NormalizeAngle(a: int) returns (r: int)
    ensures 0 <= r < 360
    ensures (r - a) % 360 == 0
  {
    r := a;
    while r < 0
      invariant (r - a) % 360 == 0
      decreases -r
    {
      r := r + 360;
    }
    var k := r / 360;
    r := r % 360;
    assert r - a == ((k * 360 + r) - a) - k * 360;
  }

  /** The two facts NormalizeAngle promises determine its result: it is the
      Euclidean remainder of the input by 360, whatever the input's sign. */
  lemma NormalizedIsRemainder(a: int, r: int)
    requires 0 <= r < 360 && (r - a) % 360 == 0
    ensures r == a % 360
  {
    var k := (r - a) / 360;
    assert r - a == 360 * k;
    assert a == 360 * (-k) + r;
  }

  // ----------------------------------------------------------- embedding

  /** Python's n // 2: the quotient rounded toward negative infinity. */
  function FloorHalf(n: int): (q: int)
    ensures 2 * q <= n < 2 * q + 2
  {
    n / 2
  }

  /** Cell (s, t) of the canvas lies on the copy of an h x w image placed with
      its top-left corner at (top, left). */
  predicate InWindow(s: int, t: int, top: int, left: int, h: int, w: int)
  {
    top <= s < top + h && left <= t < left + w
  }

  /** canvas is newH x newW x 3 and holds image shifted down by
      heightIncrement // 2 rows and right by widthIncrement // 2 columns;
      every channel of every other cell is 0. */
  ghost predicate IsEmbedding(canvas: array3<byte>, image: array3<byte>, newH: int, newW: int,
                              heightIncrement: int, widthIncrement: int)
    reads canvas, image
  {
    var top, left := FloorHalf(heightIncrement), FloorHalf(widthIncrement);
    && canvas.Length0 == newH && canvas.Length1 == newW && canvas.Length2 == 3
    && image.Length2 >= 3
    && forall s, t, k :: 0 <= s < newH && 0 <= t < newW && 0 <= k < 3 ==>
         canvas[s, t, k] == if InWindow(s, t, top, left, image.Length0, image.Length1)
                            then image[s - top, t - left, k] else 0
  }

  /** Allocates the zero-filled canvas and copies the image into it cell by
      cell. Either increment may be negative; the image is only read at
      indices within its bounds, and is not written. */
  method Embed(image: array3<byte>, newH: nat, newW: nat, heightIncrement: int, widthIncrement: int)
    returns (canvas: array3<byte>)
    requires image.Length2 >= 3
    ensures fresh(canvas)
    ensures IsEmbedding(canvas, image, newH, newW, heightIncrement, widthIncrement)
  {
    var h, w := image.Length0, image.Length1;
    canvas := new byte[newH, newW, 3]((i, j, k) => 0);
    var s := 0;
    while s < newH
      invariant 0 <= s <= newH
      invariant forall i, j, k :: 0 <= i < newH && 0 <= j < newW && 0 <= k < 3 ==>
        canvas[i, j, k] == if i < s && InWindow(i, j, FloorHalf(heightIncrement), FloorHalf(widthIncrement), h, w)
                           then image[i - FloorHalf(heightIncrement), j - FloorHalf(widthIncrement), k] else 0
    {
      var t := 0;
      while t < newW
        invariant 0 <= t <= newW
        invariant forall i, j, k :: 0 <= i < newH && 0 <= j < newW && 0 <= k < 3 ==>
          canvas[i, j, k] == if (i < s || (i == s && j < t)) &&
                                InWindow(i, j, FloorHalf(heightIncrement), FloorHalf(widthIncrement), h, w)
                             then image[i - FloorHalf(heightIncrement), j - FloorHalf(widthIncrement), k] else 0
      {
        if FloorHalf(heightIncrement) <= s < FloorHalf(heightIncrement) + h &&
           FloorHalf(widthIncrement) <= t < FloorHalf(widthIncrement) + w
        {
          var row, col := s - FloorHalf(heightIncrement), t - FloorHalf(widthIncrement);
          canvas[s, t, 0] := image[row, col, 0];
          canvas[s, t, 1] := image[row, col, 1];
          canvas[s, t, 2] := image[row, col, 2];
        }
        t := t + 1;
      }
      s := s + 1;
    }
  }

  /** Seen from the image: when neither increment is negative the whole
      image fits in the canvas, and pixel (i, j) lands at row
      i + heightIncrement // 2, column j + widthIncrement // 2. */
  lemma EmbeddingKeepsWholeImage(canvas: array3<byte>, image: array3<byte>,
                                 heightIncrement: int, widthIncrement: int)
    requires heightIncrement >= 0 && widthIncrement >= 0
    requires IsEmbedding(canvas, image, image.Length0 + heightIncrement, image.Length1 + widthIncrement,
                         heightIncrement, widthIncrement)
    ensures forall i, j, k :: 0 <= i < image.Length0 && 0 <= j < image.Length1 && 0 <= k < 3 ==>
              && 0 <= i + FloorHalf(heightIncrement) < canvas.Length0
              && 0 <= j + FloorHalf(widthIncrement) < canvas.Length1
              && canvas[i + FloorHalf(heightIncrement), j + FloorHalf(widthIncrement), k] == image[i, j, k]
  {
    var top, left := FloorHalf(heightIncrement), FloorHalf(widthIncrement);
    forall i, j, k | 0 <= i < image.Length0 && 0 <= j < image.Length1 && 0 <= k < 3
      ensures 0 <= i + top < canvas.Length0 && 0 <= j + left < canvas.Length1
      ensures canvas[i + top, j + left, k] == image[i, j, k]
    {
      assert InWindow(i + top, j + left, top, left, image.Length0, image.Length1);
    }
  }

  /** rotate_point shifts a point by half of each increment in true division,
      while the pixels are shifted by the floor of that half: the two agree
      for an even increment and differ by half a pixel for an odd one. */
  lemma PointShiftAgainstPixelShift(p: Point, tr: Transform)
    ensures Shifted(p, tr).x - p.x == FloorHalf(tr.widthIncrement) as real
                                      + (if tr.widthIncrement % 2 == 0 then 0.0 else 0.5)
    ensures Shifted(p, tr).y - p.y == FloorHalf(tr.heightIncrement) as real
                                      + (if tr.heightIncrement % 2 == 0 then 0.0 else 0.5)
  {
    var wq, hq := tr.widthIncrement / 2, tr.heightIncrement / 2;
    assert tr.widthIncrement == 2 * wq + tr.widthIncrement % 2;
    assert tr.heightIncrement == 2 * hq + tr.heightIncrement % 2;
  }

  // ------------------------------------------------------ argument checks

  /** Every tuple has n components. */
  predicate AllOfArity(tuples: seq<seq<real>>, n: nat)
  {
    forall i :: 0 <= i < |tuples| ==> |tuples[i]| == n
  }

  /** i is the first index whose tuple does not have n components. */
  predicate IsFirstMalformed(tuples: seq<seq<real>>, n: nat, i: nat)
  {
    i < |tuples| && |tuples[i]| != n && forall j :: 0 <= j < i ==> |tuples[j]| == n
  }

  /** The arity check of random_rotation: the first tuple that does not have
      n components, if any. */
  method FirstMalformed(tuples: seq<seq<real>>, n: nat) returns (bad: Option<nat>)
    ensures bad.None? <==> AllOfArity(tuples, n)
    ensures bad.Some? ==> IsFirstMalformed(tuples, n, bad.value)
  {
    var i := 0;
    while i < |tuples|
      invariant 0 <= i <= |tuples|
      invariant forall j :: 0 <= j < i ==> |tuples[j]| == n
    {
      if |tuples[i]| != n {
        return Some(i);
      }
      i := i + 1;
    }
    return None;
  }

  function AsPoint(t: seq<real>): Point
    requires |t| == 2
  {
    Point(t[0], t[1])
  }

  function AsRect(t: seq<real>): Rect
    requires |t| == 4
  {
    Rect(t[0], t[1], t[2], t[3])
  }

  // ----------------------------------------------------------- projection

  /** The parameters rotate_point receives inside random_rotation, the
      increments being the canvas size minus the image size. They place the
      centre of the image on the centre of the canvas. */
  function TransformFor(f: Frame, h: int, w: int): (tr: Transform)
    ensures Shifted(Point(w as real / 2.0, h as real / 2.0), tr) == Centre(tr)
    ensures Centre(tr) == Point(f.newW as real / 2.0, f.newH as real / 2.0)
  {
    Transform(f.cos, f.sin, f.newW - w, f.newH - h, f.newW, f.newH)
  }

  /** Hence the centre of the image goes to the rounded-up centre of the
      canvas, whatever the angle. */
  lemma ImageCentreGoesToCanvasCentre(f: Frame, h: int, w: int)
    ensures RotatePoint(Point(w as real / 2.0, h as real / 2.0), TransformFor(f, h, w))
            == Pixel(Ceil(f.newW as real / 2.0), Ceil(f.newH as real / 2.0))
  {
    CentreIsFixed(Point(w as real / 2.0, h as real / 2.0), TransformFor(f, h, w));
  }

  /** The transform that projects back from the canvas to the image: the
      opposite angle (sine negated), the increments negated, and the image
      size as the canvas size. */
  function Inverse(f: Frame, h: int, w: int): Transform
  {
    Transform(f.cos, -f.sin, -(f.newW - w), -(f.newH - h), w, h)
  }

  /** Before rounding, projecting a point with the angle and then back with the
      opposite angle and the padding reversed returns the point exactly, when
      (cos, sin) lies on the unit circle. */
  lemma ProjectBack(p: Point, f: Frame, h: int, w: int)
    requires f.cos * f.cos + f.sin * f.sin == 1.0
    ensures Projected(Projected(p, TransformFor(f, h, w)), Inverse(f, h, w)) == p
  {
    var tr, back := TransformFor(f, h, w), Inverse(f, h, w);
    var q := Projected(p, tr);
    ProjectedIsTurnAboutCentre(p, tr);
    ProjectedIsTurnAboutCentre(q, back);
    var d := Point(tr.widthIncrement as real / 2.0, tr.heightIncrement as real / 2.0);
    TurnCommutesWithShift(q, Centre(tr), d, f.cos, -f.sin);
    assert Shifted(q, back) == Point(q.x - d.x, q.y - d.y);
    assert Centre(back) == Point(Centre(tr).x - d.x, Centre(tr).y - d.y);
    TurnBack(Shifted(p, tr), Centre(tr), f.cos, f.sin);
  }

  /** new_points: one projected point per input point, in order. */
  method ProjectPoints(points: seq<seq<real>>, tr: Transform) returns (newPoints: seq<Pixel>)
    requires AllOfArity(points, 2)
    ensures |newPoints| == |points|
    ensures forall i :: 0 <= i < |points| ==> newPoints[i] == RotatePoint(AsPoint(points[i]), tr)
  {
    newPoints := [];
    for i := 0 to |points|
      invariant |newPoints| == i
      invariant forall j :: 0 <= j < i ==> newPoints[j] == RotatePoint(AsPoint(points[j]), tr)
    {
      newPoints := newPoints + [RotatePoint(AsPoint(points[i]), tr)];
    }
  }

  /** new_rects: one RotatedRect per input rectangle, in order. */
  method ProjectRects(rects: seq<seq<real>>, angle: int, tr: Transform) returns (newRects: seq<RotatedRect>)
    requires AllOfArity(rects, 4)
    ensures |newRects| == |rects|
    ensures forall i :: 0 <= i < |rects| ==> newRects[i] == RotateRect(AsRect(rects[i]), angle, tr)
  {
    newRects := [];
    for i := 0 to |rects|
      invariant |newRects| == i
      invariant forall j :: 0 <= j < i ==> newRects[j] == RotateRect(AsRect(rects[j]), angle, tr)
    {
      newRects := newRects + [RotateRect(AsRect(rects[i]), angle, tr)];
    }
  }

  // ------------------------------------------------------------ the whole

  /** random_rotation. The image is h x w with at least three channels;
      `trig` gives cos, sin and the canvas size for the normalised angle and
      h, w; `draw` is the value random.randint returns for a range. points,
      rects and the angle default as in the source: no points, no rectangles,
      and an angle drawn from [-15, 15]. */
  method RandomRotation(image: array3<byte>, trig: (int, nat, nat) -> Frame, draw: int,
                        points: seq<seq<real>> := [], rects: seq<seq<real>> := [],
                        spec: AngleSpec := Range(-15, 15))
    returns (r: Result<Rotation>)
    requires image.Length2 >= 3
    requires spec.Range? && spec.lo <= spec.hi ==> spec.lo <= draw <= spec.hi
    ensures r.Err? <==> !AllOfArity(points, 2) || !AllOfArity(rects, 4) || ChooseAngle(spec, draw).Err?
    ensures !AllOfArity(points, 2) ==>
              r.Err? && r.error.MalformedPoint? && IsFirstMalformed(points, 2, r.error.index)
    ensures AllOfArity(points, 2) && !AllOfArity(rects, 4) ==>
              r.Err? && r.error.MalformedRect? && IsFirstMalformed(rects, 4, r.error.index)
    ensures AllOfArity(points, 2) && AllOfArity(rects, 4) && r.Err? ==>
              r.error == ChooseAngle(spec, draw).error
    ensures r.Ok? ==>
              var out := r.value;
              && 0 <= out.angle < 360
              && (out.angle - ChooseAngle(spec, draw).value) % 360 == 0
              && out.transform == TransformFor(trig(out.angle, image.Length0, image.Length1),
                                               image.Length0, image.Length1)
              && fresh(out.expanded)
              && IsEmbedding(out.expanded, image, out.transform.newH, out.transform.newW,
                             out.transform.heightIncrement, out.transform.widthIncrement)
              && |out.points| == |points|
              && (forall i :: 0 <= i < |points| ==>
                    out.points[i] == RotatePoint(AsPoint(points[i]), out.transform))
              && |out.rects| == |rects|
              && (forall i :: 0 <= i < |rects| ==>
                    out.rects[i] == RotateRect(AsRect(rects[i]), out.angle, out.transform))
  {
    var badPoint := FirstMalformed(points, 2);
    if badPoint.Some? {
      return Err(MalformedPoint(badPoint.value));
    }
    var badRect := FirstMalformed(rects, 4);
    if badRect.Some? {
      return Err(MalformedRect(badRect.value));
    }

    var chosen := ChooseAngle(spec, draw);
    if chosen.Err? {
      return Err(chosen.error);
    }
    var angle := NormalizeAngle(chosen.value);

    var h, w := image.Length0, image.Length1;
    var tr := TransformFor(trig(angle, h, w), h, w);
    var expanded := Embed(image, tr.newH, tr.newW, tr.heightIncrement, tr.widthIncrement);

    var newPoints := ProjectPoints(points, tr);
    var newRects := ProjectRects(rects, angle, tr);
    return Ok(Rotation(angle, tr, expanded, newPoints, newRects));
  }
}
