/** The per-view set-up of the teapot program (`configurar_visao_e_projecao`): which quarter
    of the framebuffer view v draws into, whether it is perspective or orthographic, and
    where its camera stands relative to the model's centre. The viewport is set (and its
    quarter cleared) before the projection is chosen, so it is computed even for the calls
    that then fail. The model's radius is a real number; the matrices built from these
    values are left out. */
module Multiview {
  import opened Results
  import opened Layout

  /** A vector with integer components: the axis directions and up vectors of the views. */
  datatype Vec3 = Vec3(x: int, y: int, z: int)

  function Dot(a: Vec3, b: Vec3): int
  {
    a.x * b.x + a.y * b.y + a.z * b.z
  }

  /** `gluPerspective` with the aspect ratio W / H, or `glOrtho` over [-r, r]². */
  datatype Projection = Perspective(aspectWidth: nat, aspectHeight: nat) | Orthographic(halfSize: real)

  /** The projection of a view and its `gluLookAt` camera: the eye is the centre plus
      `eyeDistance` along `eyeAxis`, the target is the centre, and `up` is the up vector. */
  datatype Camera = Camera(projection: Projection, eyeAxis: Vec3, eyeDistance: real, up: Vec3)

  /** `cores[visao]` raising `IndexError` for a view number that does not index the colour
      list, `float(W) / float(H)` raising `ZeroDivisionError`, and the eye left unassigned
      (`UnboundLocalError`) for a negative view number that does index it. */
  datatype ViewError = IndexOutOfRange | DivisionByZero | EyeUnbound

  /** The number of background colours `main` passes as `cores`. */
  const MainColours: nat := 4

  /** Python's `cores[v]` on a list of n entries succeeds iff v indexes it from the front or,
      negative, from the back. */
  predicate Indexes(v: int, n: nat)
  {
    -(n as int) <= v < n
  }

  /** The viewport of view v, as Python computes `(v % 2) * W // 2` and `(v // 2) * H // 2`:
      both operators floor, as Dafny's do for the divisor 2. */
  function ViewRect(v: int, width: nat, height: nat): (r: Rect)
    ensures r.w == width / 2 && r.h == height / 2
    ensures 0 <= r.x && r.x + r.w <= width
    ensures 0 <= v < 4 ==> 0 <= r.y && r.y + r.h <= height
  {
    var column, row := v % 2, v / 2;
    assert column == 0 || column == 1;
    assert 0 <= v < 4 ==> row == 0 || row == 1;
    Rect((column * width) / 2, (row * height) / 2, width / 2, height / 2)
  }

  /** The axis along which view v stands off the centre: +z for the perspective view 0 and
      the front view 3, +y for the top view 1, -x for the side view 2. */
  function EyeAxis(v: int): Vec3
  {
    if v == 1 then Vec3(0, 1, 0)
    else if v == 2 then Vec3(-1, 0, 0)
    else Vec3(0, 0, 1)
  }

  /** The up vector of view v: -z for the top view, +y for the others. */
  function UpVector(v: int): Vec3
  {
    if v == 1 then Vec3(0, 0, -1) else Vec3(0, 1, 0)
  }

  /** The projection and camera that view v sets, or the exception it raises; `colours` is the
      length of the `cores` list, indexed before the projection is chosen. */
  function ViewCamera(v: int, width: nat, height: nat, radius: real, colours: nat): (r: Result<Camera, ViewError>)
    ensures r.Success? ==> 0 <= v < 4 && v < colours && r.value.eyeDistance == 3.0 * radius
    ensures r.Success? ==> (r.value.projection.Perspective? <==> v == 0)
    ensures r == Failure(IndexOutOfRange) <==> !Indexes(v, colours)
  {
    if !Indexes(v, colours) then Failure(IndexOutOfRange)
    else if v == 0 then
      if height == 0 then Failure(DivisionByZero)
      else Success(Camera(Perspective(width, height), EyeAxis(v), 3.0 * radius, UpVector(v)))
    else if 1 <= v <= 3 then
      Success(Camera(Orthographic(radius), EyeAxis(v), 3.0 * radius, UpVector(v)))
    else
      Failure(EyeUnbound)
  }

  /** `configurar_visao_e_projecao(v, W, H, centro, raio, cores)`: the viewport it sets and
      the camera it goes on to set. */
  function ConfigureView(v: int, width: nat, height: nat, radius: real, colours: nat): (r: (Rect, Result<Camera, ViewError>))
    ensures r.0.w == width / 2 && r.0.h == height / 2 && 0 <= r.0.x && r.0.x + r.0.w <= width
    ensures r.1.Success? ==> 0 <= v < 4 && 0 <= r.0.y && r.0.y + r.0.h <= height
  {
    (ViewRect(v, width, height), ViewCamera(v, width, height, radius, colours))
  }

  /** Views 0..3 draw into the bottom-left, bottom-right, top-left and top-right quarters, the
      same rectangles as the cube program's list. */
  lemma ViewsAreQuadrants(v: int, width: nat, height: nat, radius: real, colours: nat)
    requires 0 <= v < 4
    ensures ConfigureView(v, width, height, radius, colours).0 == Quadrants(width, height)[v]
  {
    if v == 1 {
      assert (1 * width) / 2 == width / 2;
    } else if v == 2 {
      assert (1 * height) / 2 == height / 2;
    } else if v == 3 {
      assert (1 * width) / 2 == width / 2 && (1 * height) / 2 == height / 2;
    }
  }

  /** The set-up fails for a view number the colour list does not index (index error), for
      view 0 on a zero-height framebuffer (division by zero) and for an indexing view number
      outside 0..3 (no eye); the first check made decides the error. */
  lemma ConfigureViewErrors(v: int, width: nat, height: nat, radius: real, colours: nat)
    ensures ViewCamera(v, width, height, radius, colours).Failure? <==>
      !Indexes(v, colours) || (v == 0 && height == 0) || v < 0 || v > 3
    ensures ViewCamera(v, width, height, radius, colours) == Failure(IndexOutOfRange) <==> v < -(colours as int) || colours <= v
    ensures ViewCamera(v, width, height, radius, colours) == Failure(DivisionByZero) <==> v == 0 && height == 0 && colours > 0
    ensures ViewCamera(v, width, height, radius, colours) == Failure(EyeUnbound) <==> Indexes(v, colours) && (v < 0 || v > 3)
  {
  }

  /** With the four colours of `main`, views 0..3 fail only on a zero height, the negative
      views -4..-1 find no eye, and every other view number is an index error. */
  lemma MainViewErrors(v: int, width: nat, height: nat, radius: real)
    ensures 0 <= v < 4 ==>
      (ViewCamera(v, width, height, radius, MainColours).Success? <==> v != 0 || height != 0)
    ensures -4 <= v < 0 ==> ViewCamera(v, width, height, radius, MainColours) == Failure(EyeUnbound)
    ensures (v < -4 || 4 <= v) ==> ViewCamera(v, width, height, radius, MainColours) == Failure(IndexOutOfRange)
  {
  }

  /** Only view 0 is perspective, and its aspect ratio is that of the whole framebuffer, not
      of its quarter; views 1 to 3 are orthographic over the model's radius. */
  lemma OnlyFirstViewPerspective(v: int, width: nat, height: nat, radius: real, colours: nat)
    requires ViewCamera(v, width, height, radius, colours).Success?
    ensures var p := ViewCamera(v, width, height, radius, colours).value.projection;
      (p.Perspective? <==> v == 0) &&
      (p.Perspective? ==> p == Perspective(width, height)) &&
      (p.Orthographic? ==> p.halfSize == radius)
  {
  }

  /** Every camera stands three radii from the centre. */
  lemma EyeDistance(v: int, width: nat, height: nat, radius: real, colours: nat)
    requires ViewCamera(v, width, height, radius, colours).Success?
    ensures ViewCamera(v, width, height, radius, colours).value.eyeDistance == 3.0 * radius
  {
  }

  /** The eye offsets from the centre, in units of the radius, are 3·(+z), 3·(+y), 3·(-x) and
      3·(+z) for views 0..3; the up vector is -z for view 1 and +y for the others. */
  lemma CameraTable(v: int, width: nat, height: nat, radius: real, colours: nat)
    requires ViewCamera(v, width, height, radius, colours).Success?
    ensures var c := ViewCamera(v, width, height, radius, colours).value;
      0 <= v < 4 &&
      c.eyeAxis == [Vec3(0, 0, 1), Vec3(0, 1, 0), Vec3(-1, 0, 0), Vec3(0, 0, 1)][v] &&
      c.up == [Vec3(0, 1, 0), Vec3(0, 0, -1), Vec3(0, 1, 0), Vec3(0, 1, 0)][v] &&
      c.eyeDistance == 3.0 * radius
  {
  }

  /** Each view's eye axis is a unit vector. */
  lemma EyeAxisUnit(v: int)
    ensures Dot(EyeAxis(v), EyeAxis(v)) == 1
  {
  }

  /** Each view's up vector is a unit vector. */
  lemma UpVectorUnit(v: int)
    ensures Dot(UpVector(v), UpVector(v)) == 1
  {
  }

  /** Each view's up vector is at right angles to its eye axis, so `gluLookAt` gets a
      well-defined camera frame. */
  lemma UpPerpendicular(v: int)
    ensures Dot(UpVector(v), EyeAxis(v)) == 0
  {
  }

  /** Every camera stands on a unit axis through the centre, with a unit up vector at right
      angles to that axis. */
  lemma CameraFrame(v: int, width: nat, height: nat, radius: real, colours: nat)
    requires ViewCamera(v, width, height, radius, colours).Success?
    ensures var c := ViewCamera(v, width, height, radius, colours).value;
      Dot(c.eyeAxis, c.eyeAxis) == 1 && Dot(c.up, c.up) == 1 && Dot(c.up, c.eyeAxis) == 0
  {
    var c := ViewCamera(v, width, height, radius, colours).value;
    assert c.eyeAxis == EyeAxis(v) && c.up == UpVector(v);
    EyeAxisUnit(v);
    UpVectorUnit(v);
    UpPerpendicular(v);
  }

  /** The three orthographic views look along three mutually perpendicular axes (top, side
      and front), and the front view looks from where the perspective view does. */
  lemma OrthographicAxes(v1: int, v2: int, width: nat, height: nat, radius: real)
    requires 1 <= v1 <= 3 && 1 <= v2 <= 3 && v1 != v2 && height > 0
    ensures Dot(ViewCamera(v1, width, height, radius, MainColours).value.eyeAxis,
                ViewCamera(v2, width, height, radius, MainColours).value.eyeAxis) == 0
    ensures ViewCamera(3, width, height, radius, MainColours).value.eyeAxis ==
            ViewCamera(0, width, height, radius, MainColours).value.eyeAxis
  {
  }
}
