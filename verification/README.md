# basic-3d-engine core in Dafny

This is a Dafny model of the computational core of a small Python 3D wireframe engine. It has three parts.

- **Homogeneous vector and 4x4 matrix algebra** (`Vector3D` and `Matrix4x4`), in `math_objects.dfy` with its laws in
  `math_properties.dfy` and the unit-test cases in `math_examples.dfy`. A vector is a row vector: a transform is
  `v * M`, and w = 1 marks a point, w = 0 a direction.
- **Scene objects** (`Object3D` and `Camera3D`), in `objects.dfy`:
  - the pose and velocity state machine that `draw` advances once per frame;
  - the left-to-right matrix chain `get_transform_matrix` builds;
  - the vertex stage of `draw`;
  - the camera's cached view-times-projection matrix, which every setter recomputes.
- **The character-grid rasteriser** (`ConsoleDrawer`), in `console_drawer.dfy`:
  - `set_size` and `clear`;
  - the DDA `draw_line`, which writes only cells inside the grid;
  - the two-part scanline `fill_triangle` built on it;
  - the brightness-to-glyph lookup.

Python's own arithmetic is modelled in `python_num.dfy`:

- `int()` truncates toward zero.
- `round()` rounds half to even.
- `abs`.
- A negative sequence index wraps round, and an index past either end raises IndexError.

Python exceptions become the `Failure` side of a `Result` (`wrappers.dfy`):

- Division by zero is `ZeroDivision`.
- A bad index is `IndexOutOfRange`.

Python floats are modelled as exact `real`s. The trigonometry and the square root are not modelled; they are passed in as
uninterpreted functions:

- `Objects.Rotations` supplies the three rotation factories.
- `Objects.Lens` supplies `get_look_at` and tan of half the field of view.

Some properties hold whatever those functions return. Examples: the projection's w column, the composition of the
transform chain, and the camera's cache consistency.

### Behaviour of the code worth knowing

- The glyph ramp has 69 characters.
- Brightness 0 and brightness 1 both select the first glyph, `'$'`: `int(69 * 1)` is 69, and `chars[-69]` wraps to
  index 0.
- The step count of `draw_line` is `abs(int(dx + dy)) + 1`. That is a truncation of the coordinate SUM, and the last
  sample lands one increment short of `p2`. The line from (0, 0) to (4, 0) marks columns 0 to 3.
- A triangle with a flat top (`high.y == mid_1.y`) gets a divisor of 1 in place of the zero height. Its upper loop then
  runs `int(1 + 1) = 2` times, so the second upper scanline lies at `y = high.y + 1`, one row past the triangle. A
  triangle squeezed into the point (0, 0) therefore fills the cells (0, 0) and (0, 1).
- `objects.py` has no `get_identity_matrix`; the identity there survives only inside a string literal. The identity is
  therefore cited from `math_objects.py`.

## Model

| member | source | states |
|---|---|---|
| PyNum.Abs | console_drawer.py:23 | `abs` of an int is the int or its negation, never negative |
| PyNum.Trunc | console_drawer.py:23 | `int(x)` truncates toward zero: the result lies within 1 of x, on the zero side |
| PyNum.Round | console_drawer.py:27-28 | `round(x)` is within 0.5 of x, and a tie goes to the even neighbour |
| PyNum.PyIndex | console_drawer.py:83 | `s[i]` succeeds exactly when -len <= i < len; a negative i reads `s[len + i]` |
| MathObjects.Point | math_objects.py:11-15 | a vector built without w is a point (w = 1) |
| MathObjects.ZeroMatrix | math_objects.py:68-72 | `Matrix4x4()` with no values holds sixteen zeros |
| MathObjects.Add | math_objects.py:17-21 | `a + b` adds b to a on x, y, z and keeps the left operand's w |
| MathObjects.Sub | math_objects.py:23-27 | `a - b` takes b from a on x, y, z and keeps the left operand's w |
| MathObjects.MulByScalar | math_objects.py:29-33 | scaling by n keeps w; ScaleScales states that x, y and z are multiplied by n |
| MathObjects.MulByMatrix | math_objects.py:35-40 | `v.mul_by_matrix(m)`, the row vector times m; its laws are IdentityFixesVectors, TranslationMovesPoints, ScaleScales and Composition |
| MathObjects.Cross | math_objects.py:52-57 | the cross product is orthogonal (dot product 0) to both operands; its w is the left operand's |
| MathObjects.Dot | math_objects.py:59-61 | the dot product of x, y, z; DotSymmetric states its symmetry and w-independence, Cross its zero against a cross product |
| MathObjects.Multiply | math_objects.py:77-86 | the triple loop that accumulates `s += a[i][k] * b[k][j]` computes the mathematical matrix product |
| MathObjects.Product | math_objects.py:77-86 | the closed-form product that `Multiply` is proved equal to; IdentityUnit, Composition and ProductAssociative state its laws |
| MathObjects.Identity | math_objects.py:93-100 | `get_identity_matrix()`; IdentityUnit and IdentityFixesVectors state what it does |
| MathObjects.Translation | math_objects.py:147-161 | `get_translation(dx, dy, dz)`; TranslationMovesPoints states what it does |
| MathObjects.Scale | math_objects.py:163-177 | `get_scale(sx, sy, sz)`; ScaleScales states what it does |
| MathObjects.PerspectiveProjection | math_objects.py:202-223 | fails with ZeroDivision exactly when tan(fov/2), aspect or f - n is 0; otherwise the w column is (0, 0, -1, 0) |
| MathProperties.AddSubRoundTrip | math_objects.py:17-27 | `(a + b) - b == a` and `(a - b) + b == a` exactly, w included |
| MathProperties.AddSubIgnoreRightW | math_objects.py:17-27 | `+` and `-` do not depend on the right operand's w |
| MathProperties.ScalarRoundTrip | math_objects.py:29-33 | scaling by n and then by 1/n gives back the vector; scaling keeps w |
| MathProperties.CrossAntiCommutative | math_objects.py:52-57 | on x, y, z `cross(a, b) == -cross(b, a)`; the w is a.w |
| MathProperties.DotSymmetric | math_objects.py:59-61 | the dot product is symmetric and does not depend on either operand's w |
| MathProperties.ProductRow | math_objects.py:77-86 | row i of `multiply(a, b)` is row i of a transformed by b |
| MathProperties.ProductColumn | math_objects.py:77-86 | column j of a product against v is v's entries times the row-by-column sums |
| MathProperties.ImageColumn | math_objects.py:35-40 | column j of b against `v * a` is the column values of `v * a` times b's column |
| MathProperties.RowsDetermine | math_objects.py:74-75 | two matrices whose four rows agree are equal |
| MathProperties.IdentityUnit | math_objects.py:93-100 | the identity is a left and a right unit of `multiply` |
| MathProperties.IdentityFixesVectors | math_objects.py:35-40 | multiplying any vector by the identity returns it unchanged, w included |
| MathProperties.TranslationMovesPoints | math_objects.py:147-161 | a translation moves a point (w = 1) by (dx, dy, dz), leaves a direction (w = 0) alone, and keeps w |
| MathProperties.ScaleScales | math_objects.py:163-177 | a scale matrix multiplies x, y, z by sx, sy, sz and keeps w; a uniform one is `mul_by_scalar`, which multiplies x, y and z by the factor and keeps w |
| MathProperties.ColumnOfProduct | math_objects.py:35-40 | each component of `v * (a * b)` equals the same component of `(v * a) * b` |
| MathProperties.Composition | objects.py:36-41 | transforming by `multiply(a, b)` is transforming by a, then by b |
| MathProperties.ProductAssociative | objects.py:79-87 | `multiply` is associative |
| MathProperties.PerspectiveW | objects.py:194-214 | whatever the fov, aspect, near and far, the projection sends a vector to one whose w is -z |
| MathExamples.MultiplyExample | tests.py:99-106 | the product of the two integer test matrices is the expected matrix |
| MathExamples.MulByMatrixExamples | tests.py:40-54 | (3, 7, 5) and (-100, 0, 35) times the 1..16 matrix give (96, 112, 128, 144) and (228, 164, 100, 36) |
| MathExamples.ArithmeticExamples | tests.py:19-38 | the sum, difference and scalar-multiple test cases, w included |
| MathExamples.CrossExamplePoints | tests.py:73-77 | cross((7, 17, 13), (-3, -5, 3)) is (116, -60, 16) with w = 1 |
| MathExamples.CrossExampleDirections | tests.py:79-82 | cross((10, 11, 12, 0), (3, 55, 29, 0)) is (-341, -254, 517, 0) |
| MathExamples.DotExample | tests.py:84-88 | dot((7, 17, 13), (-3, -5, 3)) is -67 |
| Objects.NewObject3D | objects.py:227-245 | a new object sits at pos, at rest and unrotated, with scale 100, and keeps the given vertices and edges |
| Objects.SetPos | objects.py:247-250 | sets the position and changes nothing else |
| Objects.SetSpeed | objects.py:252-255 | sets the linear velocity and changes nothing else |
| Objects.SetRotation | objects.py:257-260 | sets the three angles and changes nothing else |
| Objects.SetRotationSpeed | objects.py:262-265 | sets the angular velocity and changes nothing else |
| Objects.UpdateRotation | objects.py:267-270 | each angle grows by its angular velocity; nothing else changes |
| Objects.UpdateMovement | objects.py:272-275 | each coordinate grows by its velocity; nothing else changes |
| Objects.Update | objects.py:277-279 | `update()`: rotation then movement; UpdateAdvancesPose and UpdateNLinear state what it does |
| Objects.UpdateAdvancesPose | objects.py:277-279 | `update` adds every velocity once to its coordinate and leaves velocities, scale, vertices and edges alone; the two steps commute |
| Objects.DriftIsProduct | objects.py:277-279 | a velocity added once per frame for n frames comes to n times the velocity |
| Objects.UpdateNDrift | objects.py:277-279 | n frames add n steps of each velocity to its coordinate and change nothing else |
| Objects.UpdateNLinear | objects.py:277-279 | n frames advance every coordinate by n times its velocity |
| Objects.TransformChain | objects.py:281-288 | the accumulated transform matrix applies scale, the three rotations, the translation and the camera to a vertex one after another |
| Objects.UnrotatedStages | objects.py:281-288 | with identity rotations, the stages take a point p to scale * p + position, then apply the camera |
| Objects.UnrotatedTransform | objects.py:281-288 | the same through the single composite matrix |
| Objects.TransformMatrix | objects.py:281-288 | `get_transform_matrix`, the left-to-right product; TransformChain states what it does to a vertex |
| Objects.ProjectVertex | objects.py:299-302 | a transformed vertex with w = 0 raises ZeroDivision; otherwise x and y are divided by w and scaled to half the surface size, while z and w are kept |
| Objects.FrameVertices | objects.py:297-302 | the vertex loop succeeds exactly when no vertex's transformed w is 0, and then yields each vertex projected |
| Objects.EdgeEnds | objects.py:303-305 | every edge's two vertex lookups succeed exactly when both indices are in Python's range; otherwise IndexError |
| Objects.Draw | objects.py:290-308 | `draw` raises exactly when a vertex's w after the transform matrix is 0 or an edge index is out of range; otherwise the pose advances by one `update` and the vertices are untouched |
| Objects.CameraMatrix | objects.py:329-332 | the camera matrix can be computed exactly when the look-at and the projection both can |
| Objects.Recompute | objects.py:329-332 | recomputing makes the cache consistent and changes nothing else |
| Objects.NewCamera3D | objects.py:316-327 | a new camera has fov 90, aspect 1, near -1, far -1000 and a consistent camera matrix |
| Objects.MoveTo | objects.py:337-341 | the eye moves to pos, the eye-to-target offset is kept, the target takes pos's w, and the cache is consistent |
| Objects.SetUp | objects.py:346-348 | sets `up`, changes nothing else and keeps the cache consistent |
| Objects.SetFov | objects.py:350-352 | sets the fov, changes nothing else and keeps the cache consistent |
| Objects.SetAspectRatio | objects.py:354-356 | sets the aspect ratio, changes nothing else and keeps the cache consistent; an aspect of 0 raises |
| Objects.CameraW | objects.py:329-332 | through a consistent camera, a vertex's w is minus its view-space depth |
| ConsoleDrawer.NewDrawer | console_drawer.py:5-8 | a new drawer has an empty 0 by 0 grid |
| ConsoleDrawer.Blank | console_drawer.py:18 | height rows of width cells, every cell a space (no rows or cells for a negative size) |
| ConsoleDrawer.SetSize | console_drawer.py:15-18 | records width and height and replaces the grid with a blank one of that size |
| ConsoleDrawer.Clear | console_drawer.py:10-13 | on a grid of the recorded shape, blanks every cell and keeps the size |
| ConsoleDrawer.Steps | console_drawer.py:23 | `draw_line` takes at least one sample, so it never divides by zero |
| ConsoleDrawer.FirstSample | console_drawer.py:23-28 | the first sample is the rounded start point, and the line covers it |
| ConsoleDrawer.Increments | console_drawer.py:24-25 | `x_inc = dx / steps` and `y_inc = dy / steps`; IncrementsCoverLine states that `steps` increments lead from p1 to p2 |
| ConsoleDrawer.IncrementsCoverLine | console_drawer.py:23-25 | `steps` times each increment is that axis's whole run, dx or dy |
| ConsoleDrawer.SampleIndex | console_drawer.py:27-28 | `round(start + i * inc)`, one coordinate of sample i; FirstSample and SampleAtStepsIsEnd state its two ends |
| ConsoleDrawer.Sample | console_drawer.py:26-28 | the cell of sample i; FirstSample states sample 0 is the rounded start, SampleAtStepsIsEnd that sample `steps` would be the rounded end |
| ConsoleDrawer.SampleAtStepsIsEnd | console_drawer.py:23-28 | sample number `steps` would be the rounded end point, so `range(steps)` stops one sample before p2 |
| ConsoleDrawer.PutCell | console_drawer.py:29-30 | writes `color` at (x, y) only if 0 <= x < width and 0 <= y < height; nothing else changes |
| ConsoleDrawer.PaintSample | console_drawer.py:26-30 | one iteration of the line loop extends the painted set by the current sample |
| ConsoleDrawer.SamplesBelowStep | console_drawer.py:26 | the first i + 1 samples are the first i plus sample i |
| ConsoleDrawer.PaintedTrans | console_drawer.py:29-30 | painting one set and then another with one colour paints their union |
| ConsoleDrawer.PaintedSubset | console_drawer.py:29 | cells off the grid do not affect what a paint does |
| ConsoleDrawer.DrawLine | console_drawer.py:20-30 | the grid afterwards is the grid before, with exactly the in-bounds sampled cells set to `color`; the size is unchanged |
| ConsoleDrawer.PaintedOnlyWritesColor | console_drawer.py:29-30 | a cell that a paint changes now holds `color` and is one of the painted cells |
| ConsoleDrawer.HorizontalSamples | console_drawer.py:23-28 | the line from (0, 0) to (4, 0) takes 5 samples, landing in columns 0, 1, 2, 2, 3 of row 0 |
| ConsoleDrawer.HorizontalLineExample | console_drawer.py:20-30 | the line from (0, 0) to (4, 0) covers columns 0 to 3 only |
| ConsoleDrawer.SinglePointLine | console_drawer.py:20-30 | a line from a point to itself covers just that point's rounded cell |
| ConsoleDrawer.SortOrder | console_drawer.py:34 | the sort picks three distinct indices in ascending y, and ties keep argument order (a stable sort) |
| ConsoleDrawer.PermutationOfThree | console_drawer.py:34 | three distinct indices below 3 select the same multiset as the whole list |
| ConsoleDrawer.SortByY | console_drawer.py:34-37 | low, mid_1 and high are in ascending y and are the points the stable order picks |
| ConsoleDrawer.SortByYPermutes | console_drawer.py:34-37 | low, mid_1 and high are a permutation of p1, p2, p3 |
| ConsoleDrawer.Divisor | console_drawer.py:41-42 | a slope divisor is never 0, and it is dy itself whenever dy is not 0 |
| ConsoleDrawer.Rows | console_drawer.py:54 | `int(dy + 1)` for dy >= 0 is at least one scanline and truncates dy + 1 |
| ConsoleDrawer.Slope | console_drawer.py:39-43 | a flat edge's slope is its run, because 1 replaces the zero divisor; SlopeScales states the slope of a rising edge |
| ConsoleDrawer.SlopeScales | console_drawer.py:39-43 | a rising edge's slope times its rise gives back its run |
| ConsoleDrawer.Plan | console_drawer.py:34-66 | the fill uses the sorted vertices; the lower part draws `int(mid_1.y - low.y + 1)` scanlines, and the upper part `int(high.y - mid_1.y + 1)` of them or two for a flat top. The plan's member functions `SlopeLowHigh`, `SlopeLowMid`, `SlopeMidHigh` (lines 39-43, 49-53, 61-65) and `Mid2` (45-46) compute `r_l_h`, `r_l_m1`, `r_m1_h` and `mid_2` through Slope; SlopeScales, Mid2Walk and MidOnLongEdge state what they are |
| ConsoleDrawer.FillPlan.SlopeLowHigh | console_drawer.py:39-43 | `r_l_h`, the long edge's slope; SlopeScales gives slope times rise equals run when the edge rises |
| ConsoleDrawer.FillPlan.SlopeLowMid | console_drawer.py:49-53 | `r_l_m1`, the lower short edge's slope; LowerScanStartsOnEdge states the scanlines start on that edge |
| ConsoleDrawer.FillPlan.SlopeMidHigh | console_drawer.py:61-65 | `r_m1_h`, the upper short edge's slope; UpperScanStartsOnEdge states the scanlines start on that edge |
| ConsoleDrawer.FillPlan.Mid2 | console_drawer.py:45-46 | `mid_2`; MidOnLongEdge states it is at mid_1's height on the long edge |
| ConsoleDrawer.LowerScan | console_drawer.py:54-58 | lower scanline dy, from `(low.x + r_l_m1 * dy, low.y + dy)` to `(low.x + r_l_h * dy, low.y + dy)`; LowerScanStartsOnEdge and LowerScanEndsOnLongEdge state that it spans the two edges |
| ConsoleDrawer.UpperScan | console_drawer.py:66-70 | upper scanline dy, from `(mid_1.x + r_m1_h * dy, mid_1.y + dy)` to `(mid_2.x + r_l_h * dy, mid_1.y + dy)`; UpperScanStartsOnEdge and UpperScanEndsOnLongEdge state that it spans the two edges |
| ConsoleDrawer.OnEdge | console_drawer.py:43-46 | a point walked up from p at the slope of the line pq lies on that line |
| ConsoleDrawer.EdgePoint | console_drawer.py:43-46 | a point walked up an edge that rises, at the computed slope, lies on that edge |
| ConsoleDrawer.EdgePointInTwoSteps | console_drawer.py:66-69 | walking d rows and then t more rows up a rising edge stays on it |
| ConsoleDrawer.Mid2Walk | console_drawer.py:45-46 | mid_2 is mid_1.y - low.y rows up the long edge from low |
| ConsoleDrawer.MidOnLongEdge | console_drawer.py:39-46 | mid_2 is at mid_1's height and lies on the long edge from low to high whenever that edge is not flat, which is where the two parts meet |
| ConsoleDrawer.LowerScanStartsOnEdge | console_drawer.py:49-58 | lower scanline dy is at height low.y + dy and starts on the edge from low to mid_1 when that edge is not flat |
| ConsoleDrawer.LowerScanEndsOnLongEdge | console_drawer.py:54-58 | lower scanline dy ends on the long edge from low to high when that edge is not flat |
| ConsoleDrawer.UpperScanStartsOnEdge | console_drawer.py:61-70 | upper scanline dy is at height mid_1.y + dy and starts on the edge from mid_1 to high when that edge is not flat |
| ConsoleDrawer.UpperScanEnd | console_drawer.py:66-69 | the end of upper scanline dy is reached from low by walking mid_1.y - low.y rows and then dy rows up the long edge |
| ConsoleDrawer.UpperScanEndsOnLongEdge | console_drawer.py:66-70 | upper scanline dy, drawn from mid_2, ends on the long edge from low to high when that edge is not flat |
| ConsoleDrawer.FillTriangle | console_drawer.py:32-70 | the grid changes only through the scanlines: exactly the in-bounds cells they sample are set to `color`, and the size is unchanged |
| ConsoleDrawer.PointTriangleExample | console_drawer.py:39-70 | a triangle squeezed into the point (0, 0) fills that cell and the one below it |
| ConsoleDrawer.CharByBrightness | console_drawer.py:76-83 | the lookup succeeds exactly when `int(69 * b)` lies in (-69, 69], and then returns a ramp glyph |
| ConsoleDrawer.RampShape | console_drawer.py:82 | the ramp has 69 glyphs and starts with `'$'` |
| ConsoleDrawer.RampSteps | console_drawer.py:83 | `int(len(chars) * brightness)`, the index the lookup negates; RampStepsBounds bounds it in [0, 69] on [0, 1] |
| ConsoleDrawer.RampStepsBounds | console_drawer.py:83 | for 0 <= b <= 1, `int(69 * b)` lies between 0 and 69 |
| ConsoleDrawer.NegativeIndexWraps | console_drawer.py:83 | `s[-t]` for 0 <= t <= len(s) succeeds and reads `s[(len(s) - t) % len(s)]` |
| ConsoleDrawer.BrightnessInRange | console_drawer.py:82-83 | for 0 <= b <= 1 the lookup never fails and returns the glyph `int(69 * b)` places from the end, wrapping to the first |
| ConsoleDrawer.BrightnessEnds | console_drawer.py:82-83 | brightness 0 and brightness 1 both give `'$'` |
| ConsoleDrawer.BrighterIsDenser | console_drawer.py:82-83 | for b >= 1/69, a brighter value never picks a glyph further along the ramp |

## Left out

- `length`, `normalize`, `deg_to_rad`, the rotation factories `get_rotate_x/y/z`, `get_look_at` and `tan` are left out.
  They need sqrt, sin, cos, tan and pi. They enter only as the uninterpreted `Rotations` and `Lens` parameters, so
  their numeric values, and the ZeroDivisionError `normalize` raises on a zero vector, are whatever those parameters
  say.
- `Matrix4x4` admits only 4x4 matrices (the `Matrix` subset type). The source accepts any nested list and fails on a
  short one only when it is indexed.
- Floating-point rounding, inf and nan are not modelled: coordinates are exact reals.
- `Object3D.draw` stops short of the screen. The `pygame.draw.line` calls, the surface and `center_coords` are not
  modelled (window output). `Draw` models which inputs raise, the vertex projection, the edge lookups, and the pose
  update that follows.
- The `deepcopy` of the vertices is not modelled as aliasing; the vertices are immutable values here.
- `get_camera_matrix` and `get_pos` are plain field reads of `Camera3D` and have no separate member.
- When a camera setter raises, the source's object is left with the new field but a stale matrix. The model returns
  only the `Failure`; the partly updated object is not modelled.
- `draw_line`'s default colour `"@"` is not modelled: `DrawLine` always takes the colour explicitly.
- `print`, `to_string` and `print_surface` are console output.
- The demo drivers (`graphics_3d.py`, `graphics-3d.py`, `console_graphics_3d.py`) and the mesh data in `models.py` are
  not part of this model.
- `WellFormed` (the grid has `height` rows of `width` cells) is the drawer's class invariant. `NewDrawer` and `SetSize`
  establish it, and `Clear`, `PutCell`, `DrawLine` and `FillTriangle` require it and keep it. In the source every
  drawing call follows `set_size`, so the invariant holds wherever those operations are reached; a drawer whose grid
  was altered from outside is not modelled.
- ConsoleDrawer.Clear requires a grid whose shape matches the recorded size. On any other grid the source raises
  IndexError, or blanks only part of the grid, and that outcome is not modelled.
