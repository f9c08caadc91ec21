# Image rotation with re-projected annotations

This project models the core of `image_rotation.py`. Its function `random_rotation`
rotates an image by a fixed or randomly drawn whole-degree angle. It first copies the
image onto a zero-filled canvas sized to the rotated bounding box. On one side that
canvas can be narrower than the image, and then the copy crops it. It then re-projects point and rectangle
annotations so that they follow the rotation: each point goes through
`rotate_point`, and each `(x, y, w, h)` rectangle becomes a `RotatedRect` record.

The model has three modules:

- `Geometry` (`geometry.dfy`) models `rotate_point` over exact reals. The cosine
  and sine of the rotation are parameters. The lemmas show that the
  shift, flip, rotate and unflip chain is a turn of the shifted point about the
  canvas centre (`Turn`, an independent reference definition). With cos² + sin² = 1
  that turn keeps the distance between any two points, so the unrounded
  projection is rigid, the opposite angle undoes it, and it is affine. A point
  shifted onto the canvas centre goes to the rounded-up canvas centre. With no rotation and no padding, an integer point maps
  to itself.
- `RotatedRects` (`rotated_rect.dfy`) holds the `RotatedRect` record and the
  split of a rectangle into its centre and its corners TL, TR, BR, BL. The corners
  are projected and stored in that order.
- `ImageRotation` (`image_rotation.dfy`) models `random_rotation`:
  - the arity checks on points and rectangles, with errors returned as values;
  - the choice of the angle;
  - the `while` loop that normalises the angle, as a method with a loop invariant;
  - the nested loop that copies the image into the zero-filled canvas, as a method
    over `array3<byte>` proved against the predicate `IsEmbedding`;
  - the loops that build the point and rectangle lists;
  - the whole function, as `RandomRotation`.

The trigonometric sizing of the canvas is not modelled. `RandomRotation` takes it as a
function parameter `trig`, which gives cos and sin of the radian and the canvas width and
height for the normalised angle and the image size. The random draw is a parameter `draw`,
which lies in `[lo, hi]`. The image is read-only in every method: none of them has a
`modifies` clause for it.

Python's `//` by 2 is floor division. Dafny's `/` on `int` is Euclidean, and for the
positive divisor 2 the two agree; `FloorHalf` states the floor property.
`rotate_point` divides the increments by `2.` (true division), while the pixel copy
uses `// 2`. `PointShiftAgainstPixelShift` shows the two shifts differ by half a pixel
when an increment is odd.

## Model

| member | source | states |
|---|---|---|
| `Geometry.Ceil` | image_rotation.py:29 | `math.ceil`: the result is the least integer at or above its argument (r ≤ n < r + 1). |
| `Geometry.RotatePoint` | image_rotation.py:22-31 | Each output coordinate is the unrounded projected coordinate rounded up: it lies in [q, q + 1). |
| `Geometry.ProjectedIsTurnAboutCentre` | image_rotation.py:25-29 | Shift, re-centre with y flip, rotate, then undo centring and flip equals turning the shifted point about the canvas centre (new_w/2, new_h/2) by the reference `Turn`. |
| `Geometry.TurnKeepsDistance` | image_rotation.py:27-28 | When cos² + sin² = 1, the rotation step keeps every point's squared distance to the centre. |
| `Geometry.TurnIsRigid` | image_rotation.py:27-28 | When cos² + sin² = 1, the rotation step keeps the squared distance between any two points. |
| `Geometry.ProjectedIsRigid` | image_rotation.py:25-29 | When cos² + sin² = 1, the whole unrounded projection of rotate_point keeps the squared distance between any two points: it is rigid. |
| `Geometry.TurnBack` | image_rotation.py:27-28 | When cos² + sin² = 1, turning by the opposite angle (sine negated) about the same centre returns the original point exactly. |
| `Geometry.TurnKeepsMidpoints` | image_rotation.py:27-28 | The rotation step maps the midpoint of two points to the midpoint of their images. |
| `Geometry.ProjectedKeepsMidpoints` | image_rotation.py:25-29 | The whole unrounded projection of rotate_point is affine: it maps midpoints to midpoints. |
| `Geometry.CentreIsFixed` | image_rotation.py:25-29 | For any cos and sin, a point whose shifted position is the canvas centre maps to (ceil(new_w/2), ceil(new_h/2)). |
| `Geometry.NoTurnIsShift` | image_rotation.py:25-29 | With cos = 1 and sin = 0, rotate_point is the ceiling of the point shifted by half of each increment. |
| `Geometry.IdentityOnIntegerPoints` | image_rotation.py:25-29 | With cos = 1, sin = 0 and zero increments, an integer point (x, y) maps to itself. |
| `RotatedRects.RectCentre` | image_rotation.py:88 | The centre (x + w/2, y + h/2) is the midpoint of both diagonals: TL–BR and TR–BL. |
| `RotatedRects.Corners` | image_rotation.py:90-96 | There are four corners, starting at TL = (x, y). The TL→TR and BL→BR edges are the vector (w, 0). The TL→BL and TR→BR edges are (0, h). |
| `RotatedRects.RotateRect` | image_rotation.py:88-99 | A RotatedRect carries the input's width and height and the given angle. Its centre is the projected rect centre. It has exactly four box points: the projected TL, TR, BR, BL, in that order. |
| `RotatedRects.CentreBetweenDiagonalCorners` | image_rotation.py:88-99 | After rounding, twice each projected-centre coordinate is within 1 of the sum of the projected ends of either diagonal. |
| `RotatedRects.UnrotatedRectKeepsCorners` | image_rotation.py:90-99 | With no rotation and no padding, an integer rect's box points are exactly (x,y), (x+w,y), (x+w,y+h), (x,y+h). |
| `ImageRotation.ChooseAngle` | image_rotation.py:48-51 | An int angle is used unchanged. For a range, the chosen angle lies in [lo, hi]. A range with lo > hi is an error, as random.randint raises. |
| `ImageRotation.NormalizeAngle` | image_rotation.py:53-55 | The normalised angle lies in [0, 360) and is congruent to the input modulo 360. |
| `ImageRotation.NormalizedIsRemainder` | image_rotation.py:53-55 | Those two facts pin the result to the Euclidean remainder a mod 360, for negative inputs too. |
| `ImageRotation.FloorHalf` | image_rotation.py:69-71 | `n // 2` rounds toward negative infinity: 2q ≤ n < 2q + 2, also for negative increments. |
| `ImageRotation.Embed` | image_rotation.py:66-73 | The new canvas is new_h × new_w × 3. Inside the window starting at (hinc // 2, winc // 2) with the image's size, all three channels equal the shifted image pixel. Everywhere else they are 0. The image is indexed only in bounds and is not written. |
| `ImageRotation.EmbeddingKeepsWholeImage` | image_rotation.py:66-73 | When neither increment is negative, every image pixel (i, j) appears in the canvas at (i + hinc // 2, j + winc // 2). |
| `ImageRotation.PointShiftAgainstPixelShift` | image_rotation.py:25 | A point is shifted by inc/2 exactly. The pixel shift is inc // 2. They agree for even increments and differ by 0.5 for odd ones. |
| `ImageRotation.FirstMalformed` | image_rotation.py:40-45 | The check reports nothing exactly when every tuple has the required arity. Otherwise it reports the first index whose tuple has the wrong arity. |
| `ImageRotation.TransformFor` | image_rotation.py:62-63 | The increments (canvas size minus image size), halved as rotate_point shifts by them, place the centre of the image (w/2, h/2) exactly on the canvas centre (new_w/2, new_h/2). |
| `ImageRotation.ImageCentreGoesToCanvasCentre` | image_rotation.py:25-29 | At every angle, rotate_point maps the image centre to (ceil(new_w/2), ceil(new_h/2)). |
| `ImageRotation.ProjectBack` | image_rotation.py:25-29 | When cos² + sin² = 1, projecting a point with the angle and then back with the opposite angle, negated increments and the image size as canvas returns the point exactly, before rounding. |
| `ImageRotation.ProjectPoints` | image_rotation.py:80-83 | The output point list has the input's length, and entry i is rotate_point of input point i. |
| `ImageRotation.ProjectRects` | image_rotation.py:86-100 | The output rect list has the input's length, and entry i is the RotatedRect of input rect i with the normalised angle. |
| `ImageRotation.RandomRotation` | image_rotation.py:34-102 | points, rects and the angle default to [], [] and the range (-15, 15), as in the source signature. It fails exactly when a point is not a 2-tuple, a rect is not a 4-tuple, or the range is empty, reported in that order with the first bad index. On success: the angle is normalised and congruent to the chosen one, and the canvas is the embedding. The point and rect lists match the inputs one for one. |

## Left out

- The trigonometric canvas sizing (image_rotation.py:56, 60-61): the radian `angle * 3.1416 / 180`, `sin`, `cos` and the float `ceil` of the bounding box. `trig` supplies its results as a function of the angle and image size, with no constraint on their values. Only the lemmas that need cos² + sin² = 1 require it.
- `cv2.getRotationMatrix2D` and `cv2.warpAffine` (image_rotation.py:76-77): the resampled pixels are not modelled, and `RandomRotation` returns the padded canvas before the warp. The source passes the warp centre as (new_h/2, new_w/2), with the axes swapped relative to the centre rotate_point uses. On a non-square canvas the pixels and the projected points therefore turn about different centres. This is not checked here.
- `random.randint` (image_rotation.py:51): the drawn value is the parameter `draw`, constrained to [lo, hi]. There is no randomness.
- Floating point: rotate_point is modelled over exact reals. Float rounding before `math.ceil` is not modelled.
- `isinstance` type checks (image_rotation.py:36-39, 42, 45): the model's types enforce them. This includes the check that `rotation_angle` is an int or a 2-tuple (image_rotation.py:39), which the source runs before the point checks: `AngleSpec` has only those two forms, so that failure cannot arise. The arity checks on points and rects remain runtime errors. The assert in rotate_point (image_rotation.py:23) always holds after those checks, since `Point` is a pair by construction.
- The rounded round trip: `ProjectBack` proves that projecting back with the opposite angle restores a point exactly before rounding. No bound is proved for the round trip through `RotatePoint`, whose two ceilings can each move a coordinate by less than one pixel.
- Parameter order of `RandomRotation`: `trig` and `draw` stand for the trigonometry and the random draw and come first. points, rects and the angle follow them and keep the source's defaults.
- numpy dtype details: channels are bytes 0..255. Only the first three channels are copied, and the model requires at least three, as the source indexes channels 0 to 2.
- The `__main__` demo (image_rotation.py:105-124): file reading, drawing and display.
