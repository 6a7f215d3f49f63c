/**
 * Scene objects (objects.py): an `Object3D` with its pose, velocities and scale,
 * and a `Camera3D` that caches its view-times-projection matrix.
 *
 * The trigonometry is not modelled: the three rotation factories and the
 * camera's look-at matrix and tan(fov / 2) come in as uninterpreted functions.
 */
module Objects {
  import opened Wrappers
  import opened MathObjects
  import opened MathProperties
  import opened PyNum

  // ------------------------------------------------------------- Object3D

  /** A wireframe object: vertices, edges as index pairs, and its pose state. */
  datatype Object3D = Object3D(
    vertices: seq<Vector3D>,
    edges: seq<(int, int)>,
    x: real, y: real, z: real,
    vx: real, vy: real, vz: real,
    xRot: real, yRot: real, zRot: real,
    vxRot: real, vyRot: real, vzRot: real,
    scale: real)

  /** `Object3D(vertices, edges, pos)`: at rest, unrotated, scale 100. */
  function NewObject3D(vertices: seq<Vector3D>, edges: seq<(int, int)>, pos: (real, real, real)): (o: Object3D)
    ensures o.vertices == vertices && o.edges == edges
    ensures (o.x, o.y, o.z) == pos
    ensures o.vx == o.vy == o.vz == 0.0
    ensures o.xRot == o.yRot == o.zRot == 0.0
    ensures o.vxRot == o.vyRot == o.vzRot == 0.0
    ensures o.scale == 100.0
  {
    Object3D(vertices, edges, pos.0, pos.1, pos.2,
             0.0, 0.0, 0.0, 0.0, 0.0, 0.0, 0.0, 0.0, 0.0, 100.0)
  }

  /** `set_pos`: overwrites the position and nothing else. */
  function SetPos(o: Object3D, x: real, y: real, z: real): (r: Object3D)
    ensures (r.x, r.y, r.z) == (x, y, z)
    ensures r.(x := o.x, y := o.y, z := o.z) == o
  {
    o.(x := x, y := y, z := z)
  }

  /** `set_speed`: overwrites the linear velocity and nothing else. */
  function SetSpeed(o: Object3D, vx: real, vy: real, vz: real): (r: Object3D)
    ensures (r.vx, r.vy, r.vz) == (vx, vy, vz)
    ensures r.(vx := o.vx, vy := o.vy, vz := o.vz) == o
  {
    o.(vx := vx, vy := vy, vz := vz)
  }

  /** `set_rotation`: overwrites the three angles and nothing else. */
  function SetRotation(o: Object3D, xRot: real, yRot: real, zRot: real): (r: Object3D)
    ensures (r.xRot, r.yRot, r.zRot) == (xRot, yRot, zRot)
    ensures r.(xRot := o.xRot, yRot := o.yRot, zRot := o.zRot) == o
  {
    o.(xRot := xRot, yRot := yRot, zRot := zRot)
  }

  /** `set_rotation_speed`: overwrites the angular velocity and nothing else. */
  function SetRotationSpeed(o: Object3D, vxRot: real, vyRot: real, vzRot: real): (r: Object3D)
    ensures (r.vxRot, r.vyRot, r.vzRot) == (vxRot, vyRot, vzRot)
    ensures r.(vxRot := o.vxRot, vyRot := o.vyRot, vzRot := o.vzRot) == o
  {
    o.(vxRot := vxRot, vyRot := vyRot, vzRot := vzRot)
  }

  /** `update_rotation`: advances the angles by one step of angular velocity. */
  function UpdateRotation(o: Object3D): (r: Object3D)
    ensures r.xRot - o.xRot == o.vxRot && r.yRot - o.yRot == o.vyRot && r.zRot - o.zRot == o.vzRot
    ensures r.(xRot := o.xRot, yRot := o.yRot, zRot := o.zRot) == o
  {
    o.(xRot := o.xRot + o.vxRot, yRot := o.yRot + o.vyRot, zRot := o.zRot + o.vzRot)
  }

  /** `update_movement`: advances the position by one step of velocity. */
  function UpdateMovement(o: Object3D): (r: Object3D)
    ensures r.x - o.x == o.vx && r.y - o.y == o.vy && r.z - o.z == o.vz
    ensures r.(x := o.x, y := o.y, z := o.z) == o
  {
    o.(x := o.x + o.vx, y := o.y + o.vy, z := o.z + o.vz)
  }

  /** `update`: one frame's pose advance, rotation first, then movement. */
  function Update(o: Object3D): (r: Object3D)
  {
    UpdateMovement(UpdateRotation(o))
  }

  /**
   * One `update` adds each velocity exactly once to its coordinate; the
   * velocities, scale, vertices and edges stay as they were. Rotation and
   * movement touch disjoint fields, so their order does not matter.
   */
  lemma UpdateAdvancesPose(o: Object3D)
    ensures Update(o) == o.(x := o.x + o.vx, y := o.y + o.vy, z := o.z + o.vz,
                            xRot := o.xRot + o.vxRot, yRot := o.yRot + o.vyRot, zRot := o.zRot + o.vzRot)
    ensures Update(o) == UpdateRotation(UpdateMovement(o))
  {
  }

  /** `n` frames advance the pose by `n` times each velocity. */
  function UpdateN(o: Object3D, n: nat): Object3D
    decreases n
  {
    if n == 0 then o else UpdateN(Update(o), n - 1)
  }

  /** `n` steps of `v` added one after another, as `n` frames add a velocity. */
  function Drift(v: real, n: nat): real
    decreases n
  {
    if n == 0 then 0.0 else Drift(v, n - 1) + v
  }

  /** `n` steps of `v` come to `n * v`. */
  lemma {:induction false} DriftIsProduct(v: real, n: nat)
    ensures Drift(v, n) == n as real * v
    decreases n
  {
    if n > 0 {
      DriftIsProduct(v, n - 1);
      assert Drift(v, n) == Drift(v, n - 1) + v;
      assert (n - 1) as real * v + v == n as real * v;
    }
  }

  /** After `n` frames each coordinate has drifted by `n` steps of its velocity; nothing else changed. */
  lemma {:induction false} UpdateNDrift(o: Object3D, n: nat)
    ensures UpdateN(o, n) == o.(x := o.x + Drift(o.vx, n), y := o.y + Drift(o.vy, n), z := o.z + Drift(o.vz, n),
                                xRot := o.xRot + Drift(o.vxRot, n), yRot := o.yRot + Drift(o.vyRot, n),
                                zRot := o.zRot + Drift(o.vzRot, n))
    decreases n
  {
    if n > 0 {
      UpdateAdvancesPose(o);
      UpdateNDrift(Update(o), n - 1);
    }
  }

  /** `n` frames advance every coordinate by `n` times its velocity. */
  lemma UpdateNLinear(o: Object3D, n: nat)
    ensures UpdateN(o, n) == o.(x := o.x + n as real * o.vx, y := o.y + n as real * o.vy,
                                z := o.z + n as real * o.vz,
                                xRot := o.xRot + n as real * o.vxRot, yRot := o.yRot + n as real * o.vyRot,
                                zRot := o.zRot + n as real * o.vzRot)
  {
    var r := UpdateN(o, n);
    UpdateNDrift(o, n);
    DriftIsProduct(o.vx, n);
    DriftIsProduct(o.vy, n);
    DriftIsProduct(o.vz, n);
    DriftIsProduct(o.vxRot, n);
    DriftIsProduct(o.vyRot, n);
    DriftIsProduct(o.vzRot, n);
    assert r.x == o.x + n as real * o.vx && r.y == o.y + n as real * o.vy && r.z == o.z + n as real * o.vz;
    assert r.xRot == o.xRot + n as real * o.vxRot && r.yRot == o.yRot + n as real * o.vyRot;
    assert r.zRot == o.zRot + n as real * o.vzRot;
  }

  /** The rotation-matrix factories, whose entries are sines and cosines. */
  datatype Rotations = Rotations(rotateX: real -> Matrix, rotateY: real -> Matrix, rotateZ: real -> Matrix)

  /**
   * `get_transform_matrix`: scale, rotate about x, y, z, translate to the
   * position, then the camera matrix, multiplied left to right.
   */
  function TransformMatrix(o: Object3D, rot: Rotations, camera: Matrix): Matrix
  {
    var t := Scale(o.scale, o.scale, o.scale);
    var t := Product(t, rot.rotateX(o.xRot));
    var t := Product(t, rot.rotateY(o.yRot));
    var t := Product(t, rot.rotateZ(o.zRot));
    var t := Product(t, Translation(o.x, o.y, o.z));
    Product(t, camera)
  }

  /** A vertex taken through the stages of `get_transform_matrix` one at a time. */
  function ApplyStages(o: Object3D, rot: Rotations, camera: Matrix, v: Vector3D): Vector3D
  {
    var scaled := MulByMatrix(v, Scale(o.scale, o.scale, o.scale));
    var turned := MulByMatrix(MulByMatrix(MulByMatrix(scaled, rot.rotateX(o.xRot)), rot.rotateY(o.yRot)), rot.rotateZ(o.zRot));
    MulByMatrix(MulByMatrix(turned, Translation(o.x, o.y, o.z)), camera)
  }

  /** The composite matrix applies its stages to a vertex one after another. */
  lemma TransformChain(o: Object3D, rot: Rotations, camera: Matrix, v: Vector3D)
    ensures MulByMatrix(v, TransformMatrix(o, rot, camera)) == ApplyStages(o, rot, camera, v)
  {
    var s := Scale(o.scale, o.scale, o.scale);
    var rx := rot.rotateX(o.xRot);
    var ry := rot.rotateY(o.yRot);
    var rz := rot.rotateZ(o.zRot);
    var tr := Translation(o.x, o.y, o.z);
    var t1 := Product(s, rx);
    var t2 := Product(t1, ry);
    var t3 := Product(t2, rz);
    var t4 := Product(t3, tr);
    Composition(v, t4, camera);
    Composition(v, t3, tr);
    Composition(v, t2, rz);
    Composition(v, t1, ry);
    Composition(v, s, rx);
  }

  /** Identity rotations reduce the stages to scale, then translate, then the camera. */
  lemma UnrotatedStages(o: Object3D, rot: Rotations, camera: Matrix, v: Vector3D)
    requires rot.rotateX(o.xRot) == Identity() && rot.rotateY(o.yRot) == Identity() && rot.rotateZ(o.zRot) == Identity()
    requires v.w == 1.0
    ensures ApplyStages(o, rot, camera, v) ==
      MulByMatrix(Point(o.scale * v.x + o.x, o.scale * v.y + o.y, o.scale * v.z + o.z), camera)
  {
    var scaled := MulByMatrix(v, Scale(o.scale, o.scale, o.scale));
    ScaleScales(v, o.scale, o.scale, o.scale);
    assert scaled == Point(o.scale * v.x, o.scale * v.y, o.scale * v.z);
    IdentityFixesVectors(scaled);
    TranslationMovesPoints(scaled, o.x, o.y, o.z);
  }

  /**
   * With rotations that are the identity (every angle 0), a model-space point
   * lands at scale * point + position before the camera matrix is applied.
   */
  lemma UnrotatedTransform(o: Object3D, rot: Rotations, camera: Matrix, v: Vector3D)
    requires rot.rotateX(o.xRot) == Identity() && rot.rotateY(o.yRot) == Identity() && rot.rotateZ(o.zRot) == Identity()
    requires v.w == 1.0
    ensures MulByMatrix(v, TransformMatrix(o, rot, camera)) ==
      MulByMatrix(Point(o.scale * v.x + o.x, o.scale * v.y + o.y, o.scale * v.z + o.z), camera)
  {
    TransformChain(o, rot, camera, v);
    UnrotatedStages(o, rot, camera, v);
  }

  /**
   * One vertex of `draw`'s copy: transformed by `m`, then x and y divided by
   * w and scaled to half the surface size; a zero w raises ZeroDivisionError.
   */
  function ProjectVertex(v: Vector3D, m: Matrix, width: int, height: int): (r: Result<Vector3D>)
    ensures r.Success? <==> MulByMatrix(v, m).w != 0.0
    ensures r.Failure? ==> r.error == ZeroDivision
    ensures r.Success? ==> var t := MulByMatrix(v, m);
      && r.value.x * t.w == t.x * (width as real / 2.0)
      && r.value.y * t.w == t.y * (height as real / 2.0)
      && r.value.z == t.z && r.value.w == t.w
  {
    var t := MulByMatrix(v, m);
    if t.w == 0.0 then Failure(ZeroDivision)
    else Success(Vector3D(t.x / t.w * (width as real / 2.0), t.y / t.w * (height as real / 2.0), t.z, t.w))
  }

  /** The vertex stage of `draw`: every vertex projected in turn; one zero w aborts the frame. */
  function FrameVertices(vs: seq<Vector3D>, m: Matrix, width: int, height: int): (r: Result<seq<Vector3D>>)
    ensures r.Success? <==> forall i | 0 <= i < |vs| :: MulByMatrix(vs[i], m).w != 0.0
    ensures r.Success? ==> |r.value| == |vs|
    ensures r.Success? ==> forall i | 0 <= i < |vs| :: ProjectVertex(vs[i], m, width, height) == Success(r.value[i])
  {
    if |vs| == 0 then Success([])
    else
      var first :- ProjectVertex(vs[0], m, width, height);
      var rest :- FrameVertices(vs[1..], m, width, height);
      assert forall i | 1 <= i < |vs| :: vs[i] == vs[1..][i - 1];
      Success([first] + rest)
  }

  /** Edge `e` of an object with `n` vertices names two of them, as Python indexing allows. */
  predicate EdgeInRange(e: (int, int), n: int)
  {
    -n <= e.0 < n && -n <= e.1 < n
  }

  /**
   * The endpoints `draw` reads for each edge, `obj_vertices[edge[0]]` and
   * `obj_vertices[edge[1]]`; the first edge that names a missing vertex
   * raises IndexError.
   */
  function EdgeEnds(edges: seq<(int, int)>, vs: seq<Vector3D>): (r: Result<seq<(Vector3D, Vector3D)>>)
    ensures r.Success? <==> forall k | 0 <= k < |edges| :: EdgeInRange(edges[k], |vs|)
    ensures r.Failure? ==> r.error == IndexOutOfRange
    ensures r.Success? ==> |r.value| == |edges|
    ensures r.Success? ==> forall k | 0 <= k < |edges| ::
      Success(r.value[k].0) == PyIndex(vs, edges[k].0) && Success(r.value[k].1) == PyIndex(vs, edges[k].1)
  {
    if |edges| == 0 then Success([])
    else
      var p1 :- PyIndex(vs, edges[0].0);
      var p2 :- PyIndex(vs, edges[0].1);
      var rest :- EdgeEnds(edges[1..], vs);
      assert forall k | 1 <= k < |edges| :: edges[k] == edges[1..][k - 1];
      Success([(p1, p2)] + rest)
  }

  /**
   * The state change of `draw(surface, color, camera)`: the object's own
   * vertices are never modified, and the pose advances once, after the
   * drawing, unless the vertex stage or an edge lookup raised first.
   */
  function Draw(o: Object3D, rot: Rotations, camera: Matrix, width: int, height: int): (r: Result<Object3D>)
    ensures r.Success? <==>
      && FrameVertices(o.vertices, TransformMatrix(o, rot, camera), width, height).Success?
      && forall k | 0 <= k < |o.edges| :: EdgeInRange(o.edges[k], |o.vertices|)
    ensures r.Success? ==> r.value == Update(o) && r.value.vertices == o.vertices
  {
    var projected :- FrameVertices(o.vertices, TransformMatrix(o, rot, camera), width, height);
    var _ :- EdgeEnds(o.edges, projected);
    Success(Update(o))
  }

  // ------------------------------------------------------------- Camera3D

  /**
   * The parts of the camera matrix that need sqrt and tan: `get_look_at`
   * (which raises ZeroDivisionError when it normalises a zero vector) and
   * tan of half the field of view, given the field of view in degrees.
   */
  datatype Lens = Lens(lookAt: (Vector3D, Vector3D, Vector3D) -> Result<Matrix>, tanHalfFov: real -> real)

  /** A camera's pose, frustum parameters and cached view-times-projection matrix. */
  datatype Camera3D = Camera3D(
    pos: Vector3D, target: Vector3D, up: Vector3D,
    fov: real, aspectRatio: real, near: real, far: real,
    cameraMatrix: Matrix)

  /** What `update_camera_matrix` computes from the camera's parameters. */
  function CameraMatrix(lens: Lens, pos: Vector3D, target: Vector3D, up: Vector3D,
                        fov: real, aspect: real, near: real, far: real): (r: Result<Matrix>)
    ensures r.Success? <==>
      lens.lookAt(pos, target, up).Success? && PerspectiveProjection(lens.tanHalfFov(fov), aspect, near, far).Success?
  {
    var view :- lens.lookAt(pos, target, up);
    var projection :- PerspectiveProjection(lens.tanHalfFov(fov), aspect, near, far);
    Success(Product(view, projection))
  }

  /** The cache agrees with the camera's current parameters. */
  predicate Consistent(lens: Lens, c: Camera3D)
  {
    CameraMatrix(lens, c.pos, c.target, c.up, c.fov, c.aspectRatio, c.near, c.far) == Success(c.cameraMatrix)
  }

  /** `update_camera_matrix`: recomputes the cache, or raises. */
  function Recompute(lens: Lens, c: Camera3D): (r: Result<Camera3D>)
    ensures r.Success? <==> CameraMatrix(lens, c.pos, c.target, c.up, c.fov, c.aspectRatio, c.near, c.far).Success?
    ensures r.Success? ==> Consistent(lens, r.value) && r.value.(cameraMatrix := c.cameraMatrix) == c
  {
    var m :- CameraMatrix(lens, c.pos, c.target, c.up, c.fov, c.aspectRatio, c.near, c.far);
    Success(c.(cameraMatrix := m))
  }

  /** `Camera3D(pos, target, up)`: fov 90, aspect 1, near -1, far -1000. */
  function NewCamera3D(lens: Lens, pos: Vector3D, target: Vector3D, up: Vector3D): (r: Result<Camera3D>)
    ensures r.Success? <==> CameraMatrix(lens, pos, target, up, 90.0, 1.0, -1.0, -1000.0).Success?
    ensures r.Success? ==> Consistent(lens, r.value)
    ensures r.Success? ==> r.value.pos == pos && r.value.target == target && r.value.up == up
    ensures r.Success? ==> r.value.fov == 90.0 && r.value.aspectRatio == 1.0
    ensures r.Success? ==> r.value.near == -1.0 && r.value.far == -1000.0
  {
    Recompute(lens, Camera3D(pos, target, up, 90.0, 1.0, -1.0, -1000.0, ZeroMatrix()))
  }

  /**
   * `move_to(pos)`: the eye moves to `pos` and the target moves with it, so the
   * eye-to-target offset is kept (the offset is taken before the eye moves).
   * The new target inherits `pos.w`, as `+` keeps the left operand's w.
   */
  function MoveTo(lens: Lens, c: Camera3D, pos: Vector3D): (r: Result<Camera3D>)
    ensures r.Success? <==>
      CameraMatrix(lens, pos, Add(pos, Sub(c.target, c.pos)), c.up, c.fov, c.aspectRatio, c.near, c.far).Success?
    ensures r.Success? ==> Consistent(lens, r.value)
    ensures r.Success? ==> r.value.pos == pos && r.value.target.w == pos.w
    ensures r.Success? ==>
      && r.value.target.x - r.value.pos.x == c.target.x - c.pos.x
      && r.value.target.y - r.value.pos.y == c.target.y - c.pos.y
      && r.value.target.z - r.value.pos.z == c.target.z - c.pos.z
    ensures r.Success? ==> r.value.(pos := c.pos, target := c.target, cameraMatrix := c.cameraMatrix) == c
  {
    var direction := Sub(c.target, c.pos);
    Recompute(lens, c.(pos := pos, target := Add(pos, direction)))
  }

  /** `set_up(up)`. */
  function SetUp(lens: Lens, c: Camera3D, up: Vector3D): (r: Result<Camera3D>)
    ensures r.Success? <==> CameraMatrix(lens, c.pos, c.target, up, c.fov, c.aspectRatio, c.near, c.far).Success?
    ensures r.Success? ==> Consistent(lens, r.value) && r.value.up == up
    ensures r.Success? ==> r.value.(up := c.up, cameraMatrix := c.cameraMatrix) == c
  {
    Recompute(lens, c.(up := up))
  }

  /** `set_fov(fov)`. */
  function SetFov(lens: Lens, c: Camera3D, fov: real): (r: Result<Camera3D>)
    ensures r.Success? <==> CameraMatrix(lens, c.pos, c.target, c.up, fov, c.aspectRatio, c.near, c.far).Success?
    ensures r.Success? ==> Consistent(lens, r.value) && r.value.fov == fov
    ensures r.Success? ==> r.value.(fov := c.fov, cameraMatrix := c.cameraMatrix) == c
  {
    Recompute(lens, c.(fov := fov))
  }

  /** `set_aspect_ratio(aspect_ratio)`; an aspect ratio of 0 raises ZeroDivisionError. */
  function SetAspectRatio(lens: Lens, c: Camera3D, aspect: real): (r: Result<Camera3D>)
    ensures r.Success? <==> CameraMatrix(lens, c.pos, c.target, c.up, c.fov, aspect, c.near, c.far).Success?
    ensures aspect == 0.0 ==> r.Failure?
    ensures r.Success? ==> Consistent(lens, r.value) && r.value.aspectRatio == aspect
    ensures r.Success? ==> r.value.(aspectRatio := c.aspectRatio, cameraMatrix := c.cameraMatrix) == c
  {
    Recompute(lens, c.(aspectRatio := aspect))
  }

  /**
   * Through a consistent camera, a vertex's w after the camera matrix is the
   * negated depth it has in view space: the projection's w-column at work.
   */
  lemma CameraW(lens: Lens, c: Camera3D, v: Vector3D)
    requires Consistent(lens, c)
    ensures lens.lookAt(c.pos, c.target, c.up).Success?
    ensures MulByMatrix(v, c.cameraMatrix).w == -MulByMatrix(v, lens.lookAt(c.pos, c.target, c.up).value).z
  {
    var view := lens.lookAt(c.pos, c.target, c.up).value;
    var projection := PerspectiveProjection(lens.tanHalfFov(c.fov), c.aspectRatio, c.near, c.far);
    Composition(v, view, projection.value);
    PerspectiveW(MulByMatrix(v, view), lens.tanHalfFov(c.fov), c.aspectRatio, c.near, c.far);
  }
}
