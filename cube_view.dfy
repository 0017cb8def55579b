/** The cube program with four viewports (`cubo-visualizacao-multipla-atividade.cpp`): the
    data it uploads, the calls each frame makes, and the objects it creates and deletes. The
    vertex and colour arrays are kept face by face, six vertices (two triangles) to a face,
    in the order the program lists them. The matrices are left out: each `glUniformMatrix4fv`
    is the call `SetMatrix`. */
module CubeView {
  import opened Results
  import opened Layout
  import opened GlTrace
  import opened Shaders
  import opened Vertices

  /** `dadosBufferVertices`: the faces x = -1, y = -1, y = 1, z = -1, z = 1 and x = 1. */
  const CubeFaces: seq<seq<Point>> := [
    [Point(-1.0, -1.0, -1.0), Point(-1.0, -1.0, 1.0), Point(-1.0, 1.0, 1.0),
     Point(-1.0, -1.0, -1.0), Point(-1.0, 1.0, -1.0), Point(-1.0, 1.0, 1.0)],
    [Point(1.0, -1.0, 1.0), Point(-1.0, -1.0, 1.0), Point(1.0, -1.0, -1.0),
     Point(1.0, -1.0, -1.0), Point(-1.0, -1.0, -1.0), Point(-1.0, -1.0, 1.0)],
    [Point(-1.0, 1.0, 1.0), Point(1.0, 1.0, -1.0), Point(1.0, 1.0, 1.0),
     Point(-1.0, 1.0, 1.0), Point(-1.0, 1.0, -1.0), Point(1.0, 1.0, -1.0)],
    [Point(-1.0, -1.0, -1.0), Point(1.0, -1.0, -1.0), Point(1.0, 1.0, -1.0),
     Point(-1.0, -1.0, -1.0), Point(-1.0, 1.0, -1.0), Point(1.0, 1.0, -1.0)],
    [Point(-1.0, -1.0, 1.0), Point(1.0, -1.0, 1.0), Point(1.0, 1.0, 1.0),
     Point(-1.0, -1.0, 1.0), Point(-1.0, 1.0, 1.0), Point(1.0, 1.0, 1.0)],
    [Point(1.0, -1.0, -1.0), Point(1.0, 1.0, -1.0), Point(1.0, 1.0, 1.0),
     Point(1.0, -1.0, -1.0), Point(1.0, -1.0, 1.0), Point(1.0, 1.0, 1.0)]]

  const YellowRgb: Point := Point(1.0, 1.0, 0.0)
  const Magenta: Point := Point(1.0, 0.0, 1.0)
  const Cyan: Point := Point(0.0, 1.0, 1.0)

  /** `dadosBufferCores`: an RGB colour per vertex of `dadosBufferVertices`. */
  const CubeColourFaces: seq<seq<Point>> := [
    [Red, Red, Red, Red, Red, Red],
    [Green, Green, Green, Green, Green, Green],
    [Blue, Blue, Blue, Blue, Blue, Blue],
    [YellowRgb, YellowRgb, YellowRgb, YellowRgb, YellowRgb, YellowRgb],
    [Magenta, Magenta, Magenta, Magenta, Magenta, Magenta],
    [Cyan, Cyan, Cyan, Cyan, Cyan, Cyan]]

  /** `dadosBufferVerticesEixos`: the positive half of each axis, four units long. */
  const AxisPoints: seq<Point> := [
    Point(0.0, 0.0, 0.0), Point(4.0, 0.0, 0.0),
    Point(0.0, 0.0, 0.0), Point(0.0, 4.0, 0.0),
    Point(0.0, 0.0, 0.0), Point(0.0, 0.0, 4.0)]

  /** `dadosBufferCoresEixos`. */
  const AxisColourPoints: seq<Point> := [Red, Red, Green, Green, Blue, Blue]

  /** The counts the two `glDrawArrays` calls pass: `12 * 3` and 6. */
  const CubeVertexCount: nat := 12 * 3
  const AxisVertexCount: nat := 6

  /** The floats `glBufferData` uploads for each array: its `sizeof` over that of a float. */
  const CubeFloats: nat := 108
  const AxisFloats: nat := 18

  /** `posicoes_da_camera` and `posicoes_alvo` of `desenhar`. */
  const CameraEyes: seq<Point> := [Point(0.0, 0.0, 0.0), Point(0.0, 0.0, 0.0), Point(0.0, 0.0, 0.0), Point(0.0, 0.0, 0.0)]
  const CameraTargets: seq<Point> := [Point(0.0, 0.0, 0.0), Point(0.0, 0.0, 0.0), Point(0.0, 0.0, 0.0), Point(0.0, 0.0, 0.0)]

  /** The axis and side of the plane face f lies in. */
  const FaceAxes: seq<nat> := [0, 1, 1, 2, 2, 0]
  const FaceSides: seq<real> := [-1.0, -1.0, 1.0, -1.0, 1.0, 1.0]

  predicate Corner(p: Point)
  {
    (p.x == 1.0 || p.x == -1.0) && (p.y == 1.0 || p.y == -1.0) && (p.z == 1.0 || p.z == -1.0)
  }

  /** Each cube array holds three floats for every vertex the draw call takes from it: 108
      for the cube's 36 vertices. */
  lemma CubeBufferSizes()
    ensures |FaceFloats(CubeFaces)| == |FaceFloats(CubeColourFaces)| == CubeFloats == 3 * CubeVertexCount
  {
    FaceFloatsLength(CubeFaces, 6);
    FaceFloatsLength(CubeColourFaces, 6);
  }

  /** Each axis array holds three floats for every vertex the draw call takes from it: 18
      for the axes' 6. */
  lemma AxisBufferSizes()
    ensures |PointFloats(AxisPoints)| == |PointFloats(AxisColourPoints)| == AxisFloats == 3 * AxisVertexCount
  {
  }

  /** The 36 vertices are corners of the cube [-1, 1]³; the six vertices of face f lie in the
      plane of its axis and side, and the six faces lie in six different planes. */
  lemma CubeFacesFlat()
    ensures |CubeFaces| == 6 && forall f :: 0 <= f < 6 ==> |CubeFaces[f]| == 6
    ensures forall f, i :: 0 <= f < 6 && 0 <= i < 6 ==> Corner(CubeFaces[f][i])
    ensures forall f, i :: 0 <= f < 6 && 0 <= i < 6 ==>
      Coordinate(CubeFaces[f][i], FaceAxes[f]) == FaceSides[f]
    ensures forall f, g :: 0 <= f < g < 6 ==> (FaceAxes[f], FaceSides[f]) != (FaceAxes[g], FaceSides[g])
  {
  }

  /** Each face is drawn in one colour, and no two faces share a colour. */
  lemma CubeFacesColoured()
    ensures |CubeColourFaces| == 6 && forall f :: 0 <= f < 6 ==> |CubeColourFaces[f]| == 6
    ensures forall f, i :: 0 <= f < 6 && 0 <= i < 6 ==> CubeColourFaces[f][i] == CubeColourFaces[f][0]
    ensures forall f, g :: 0 <= f < g < 6 ==> CubeColourFaces[f][0] != CubeColourFaces[g][0]
  {
  }

  /** The point len units from the origin along axis a. */
  function AlongAxis(a: nat, len: real): Point
  {
    Point(if a == 0 then len else 0.0, if a == 1 then len else 0.0, if a == 2 then len else 0.0)
  }

  /** Line a of the axes runs from the origin four units along axis a, in the matching
      primary colour (x red, y green, z blue). */
  lemma AxisLines(a: nat)
    requires a < 3
    ensures AxisPoints[2 * a] == Point(0.0, 0.0, 0.0) && AxisPoints[2 * a + 1] == AlongAxis(a, 4.0)
    ensures AxisColourPoints[2 * a] == AxisColourPoints[2 * a + 1] == AlongAxis(a, 1.0)
  {
  }

  /** Every camera `desenhar` sets stands on the point it looks at, so the direction of view
      `glm::lookAt` needs is the zero vector. */
  lemma CamerasAtTargets()
    ensures |CameraEyes| == |CameraTargets| == 4
    ensures forall i :: 0 <= i < 4 ==> CameraEyes[i] == CameraTargets[i]
  {
  }

  /** The names the program holds in its globals. */
  datatype Handles = Handles(vertexArray: Obj, program: Obj, vertices: Obj, colours: Obj,
                             axisVertices: Obj, axisColours: Obj)

  /** The four buffers are different objects. */
  predicate DistinctBuffers(h: Handles)
  {
    h.vertices != h.colours && h.vertices != h.axisVertices && h.vertices != h.axisColours &&
    h.colours != h.axisVertices && h.colours != h.axisColours && h.axisVertices != h.axisColours
  }

  /** The names `transferirDadosParaMemoriaGPU` gets when the driver's counter stands at n:
      the axis buffers, the vertex array, two shaders (n + 3, n + 4, deleted again), the
      program and the cube's two buffers. */
  function Allocated(n: nat): Handles
  {
    Handles(Obj(VertexArrayObject, n + 2), Obj(ProgramObject, n + 5), Obj(BufferObject, n + 6),
            Obj(BufferObject, n + 7), Obj(BufferObject, n), Obj(BufferObject, n + 1))
  }

  /** Every object among the handles. */
  function Owned(h: Handles): set<Obj>
  {
    {h.vertexArray, h.program, h.vertices, h.colours, h.axisVertices, h.axisColours}
  }

  /** The objects `limparDadosDaGPU` deletes. */
  function Released(h: Handles): set<Obj>
  {
    {h.vertices, h.colours, h.vertexArray, h.program}
  }

  lemma AllocatedDistinct(n: nat)
    ensures DistinctBuffers(Allocated(n))
    ensures |Owned(Allocated(n))| == 6
  {
    var h := Allocated(n);
    assert Owned(h) == {h.vertexArray} + {h.program} + {h.vertices} + {h.colours} + {h.axisVertices} + {h.axisColours};
  }

  /** The teardown releases all but the two axis buffers, which stay live until the process
      ends; deleting those too releases everything the set-up created. */
  lemma AxisBuffersLeak(n: nat)
    ensures var h := Allocated(n); Owned(h) - Released(h) == {h.axisVertices, h.axisColours}
    ensures var h := Allocated(n); Owned(h) - (Released(h) + {h.axisVertices, h.axisColours}) == {}
  {
  }

  /** `transferirDadosParaMemoriaGPU` as calls: `inicializarDadosEixos` uploads the axes,
      then the vertex array is bound and the cube's two arrays uploaded. */
  function SetupCmds(h: Handles): seq<Cmd>
  {
    Upload(h.axisVertices, AxisFloats) + Upload(h.axisColours, AxisFloats) +
    [BindVertexArray(h.vertexArray)] +
    Upload(h.vertices, CubeFloats) + Upload(h.colours, CubeFloats)
  }

  /** `desenharEixos`. */
  function AxisCmds(h: Handles): seq<Cmd>
  {
    Feed(0, h.axisVertices) + Feed(1, h.axisColours) + DrawAndDisable(Lines, AxisVertexCount)
  }

  /** The cube's draw in one pass of the loop of `desenhar`. */
  function CubeCmds(h: Handles): seq<Cmd>
  {
    Feed(0, h.vertices) + Feed(1, h.colours) + DrawAndDisable(Triangles, CubeVertexCount)
  }

  /** One pass of the loop of `desenhar`, for the viewport r. */
  function RegionCmds(r: Rect, h: Handles): seq<Cmd>
  {
    [SetViewport(r), UseProgram(h.program), SetMatrix] + CubeCmds(h) + AxisCmds(h)
  }

  /** The passes for the viewports rs, in order. */
  function RegionsCmds(rs: seq<Rect>, h: Handles): seq<Cmd>
    decreases |rs|
  {
    if rs == [] then [] else RegionsCmds(rs[..|rs| - 1], h) + RegionCmds(rs[|rs| - 1], h)
  }

  lemma RegionsSnoc(rs: seq<Rect>, i: nat, h: Handles)
    requires i < |rs|
    ensures RegionsCmds(rs[..i + 1], h) == RegionsCmds(rs[..i], h) + RegionCmds(rs[i], h)
  {
    assert rs[..i + 1][..i] == rs[..i];
  }

  /** Appending pass i to a trace that ends with the first i passes. */
  lemma RegionsTrace(t: seq<Cmd>, trace: seq<Cmd>, rs: seq<Rect>, i: nat, h: Handles)
    requires i < |rs| && trace == t + RegionsCmds(rs[..i], h)
    ensures trace + RegionCmds(rs[i], h) == t + RegionsCmds(rs[..i + 1], h)
  {
    var before, region := RegionsCmds(rs[..i], h), RegionCmds(rs[i], h);
    RegionsSnoc(rs, i, h);
    Extend(t, before, region, RegionsCmds(rs[..i + 1], h));
  }

  /** Appending frame i to a trace that ends with the first i frames. */
  lemma FramesTrace(t: seq<Cmd>, trace: seq<Cmd>, frames: seq<(nat, nat)>, i: nat, h: Handles)
    requires i < |frames| && trace == t + FramesCmds(frames[..i], h)
    ensures trace + FrameCmds(frames[i].0, frames[i].1, h) == t + FramesCmds(frames[..i + 1], h)
  {
    var before, frame := FramesCmds(frames[..i], h), FrameCmds(frames[i].0, frames[i].1, h);
    assert frames[..i + 1][..i] == frames[..i];
    assert FramesCmds(frames[..i + 1], h) == before + frame;
    Extend(t, before, frame, FramesCmds(frames[..i + 1], h));
  }

  /** `desenhar` on a W × H framebuffer. */
  function FrameCmds(width: nat, height: nat, h: Handles): seq<Cmd>
  {
    [Clear] + RegionsCmds(Quadrants(width, height), h) + [SetViewport(Rect(0, 0, width, height))]
  }

  /** The frames of the render loop, each drawn at the framebuffer size it found. */
  function FramesCmds(frames: seq<(nat, nat)>, h: Handles): seq<Cmd>
    decreases |frames|
  {
    if frames == [] then []
    else FramesCmds(frames[..|frames| - 1], h) + FrameCmds(frames[|frames| - 1].0, frames[|frames| - 1].1, h)
  }

  /** All of `main`: the first clear, the set-up and the frames. */
  function SessionCmds(frames: seq<(nat, nat)>, h: Handles): seq<Cmd>
  {
    [Clear] + SetupCmds(h) + FramesCmds(frames, h)
  }

  /** A trace that uploaded the axes, bound the vertex array and then uploaded the cube ran
      the set-up. */
  lemma SetupTrace(t: seq<Cmd>, middle: seq<Cmd>, trace: seq<Cmd>, h: Handles)
    requires middle == t + Upload(h.axisVertices, AxisFloats) + Upload(h.axisColours, AxisFloats) +
                      [BindVertexArray(h.vertexArray)]
    requires trace == middle + (Upload(h.vertices, CubeFloats) + Upload(h.colours, CubeFloats))
    ensures trace == t + SetupCmds(h)
  {
  }

  /** A trace that ran the first clear, the set-up and the frames is a trace of the session. */
  lemma SessionTrace(t: seq<Cmd>, trace: seq<Cmd>, frames: seq<(nat, nat)>, h: Handles)
    requires trace == t + [Clear] + SetupCmds(h) + FramesCmds(frames, h)
    ensures trace == t + SessionCmds(frames, h)
  {
  }

  /** The cube's draw in viewport r: 36 vertices from the vertex and colour buffers. */
  predicate DrawsCube(d: DrawCall, r: Rect, h: Handles, sizes: map<Obj, nat>)
  {
    d.primitive == Triangles && d.first == 0 && d.count == CubeVertexCount &&
    Reads(d, 0, h.vertices) && Reads(d, 1, h.colours) &&
    d.state.viewport == Some(r) && d.state.program == Some(h.program) && d.state.sizes == sizes
  }

  /** The axes' draw in viewport r: 6 line vertices from the axis buffers. */
  predicate DrawsAxes(d: DrawCall, r: Rect, h: Handles, sizes: map<Obj, nat>)
  {
    d.primitive == Lines && d.first == 0 && d.count == AxisVertexCount &&
    Reads(d, 0, h.axisVertices) && Reads(d, 1, h.axisColours) &&
    d.state.viewport == Some(r) && d.state.program == Some(h.program) && d.state.sizes == sizes
  }

  /** The draws are, viewport by viewport, the cube and then the axes. */
  predicate DrawsRegions(ds: seq<DrawCall>, rs: seq<Rect>, h: Handles, sizes: map<Obj, nat>)
  {
    |ds| == 2 * |rs| &&
    forall k :: 0 <= k < |rs| ==> DrawsCube(ds[2 * k], rs[k], h, sizes) && DrawsAxes(ds[2 * k + 1], rs[k], h, sizes)
  }

  /** One pass draws the cube and then the axes into r, and leaves r as the viewport, the
      program in use, both attribute slots disabled and the buffers as they were. */
  lemma RegionEffect(s: GlState, r: Rect, h: Handles)
    ensures DrawsRegions(Draws(s, RegionCmds(r, h)), [r], h, s.sizes)
    ensures var e := Run(s, RegionCmds(r, h));
      e.sizes == s.sizes && e.viewport == Some(r) && e.program == Some(h.program) &&
      e.enabled == s.enabled - {0, 1}
  {
    var head := [SetViewport(r), UseProgram(h.program), SetMatrix];
    HeadEffect(s, r, h.program);
    var s1 := Run(s, head);
    FeedTwoAndDraw(s1, h.vertices, h.colours, Triangles, CubeVertexCount);
    var s2 := Run(s1, CubeCmds(h));
    FeedTwoAndDraw(s2, h.axisVertices, h.axisColours, Lines, AxisVertexCount);
    ThreeParts(s, head, CubeCmds(h), AxisCmds(h));
    var cube, axes := Draws(s1, CubeCmds(h)), Draws(s2, AxisCmds(h));
    assert Draws(s, RegionCmds(r, h)) == cube + axes;
    DrawsPair(cube, axes, r, h, s.sizes);
  }

  /** The start of a pass sets the viewport and the program, and changes nothing else that a
      draw sees. */
  lemma HeadEffect(s: GlState, r: Rect, program: Obj)
    ensures var e := Run(s, [SetViewport(r), UseProgram(program), SetMatrix]);
      e.viewport == Some(r) && e.program == Some(program) && e.sizes == s.sizes && e.enabled == s.enabled
    ensures Draws(s, [SetViewport(r), UseProgram(program), SetMatrix]) == []
  {
    Three(s, SetViewport(r), UseProgram(program), SetMatrix);
  }

  /** A cube draw followed by an axes draw are the draws of one viewport. */
  lemma DrawsPair(cube: seq<DrawCall>, axes: seq<DrawCall>, r: Rect, h: Handles, sizes: map<Obj, nat>)
    requires |cube| == 1 && DrawsCube(cube[0], r, h, sizes)
    requires |axes| == 1 && DrawsAxes(axes[0], r, h, sizes)
    ensures DrawsRegions(cube + axes, [r], h, sizes)
  {
    var ds := cube + axes;
    assert ds[2 * 0] == cube[0] && ds[2 * 0 + 1] == axes[0];
  }

  lemma DrawsRegionsSnoc(ds: seq<DrawCall>, rs: seq<Rect>, es: seq<DrawCall>, r: Rect, h: Handles, sizes: map<Obj, nat>)
    requires DrawsRegions(ds, rs, h, sizes) && DrawsRegions(es, [r], h, sizes)
    ensures DrawsRegions(ds + es, rs + [r], h, sizes)
  {
    var all, rall := ds + es, rs + [r];
    forall k | 0 <= k < |rall|
      ensures DrawsCube(all[2 * k], rall[k], h, sizes) && DrawsAxes(all[2 * k + 1], rall[k], h, sizes)
    {
      if k < |rs| {
        assert all[2 * k] == ds[2 * k] && all[2 * k + 1] == ds[2 * k + 1] && rall[k] == rs[k];
      } else {
        assert all[2 * k] == es[0] && all[2 * k + 1] == es[1] && rall[k] == r;
      }
    }
  }

  /** Running t1 and then t2, one more viewport's draws after those of t1. */
  lemma RegionsStep(s: GlState, t1: seq<Cmd>, t2: seq<Cmd>, rs: seq<Rect>, r: Rect, h: Handles)
    requires DrawsRegions(Draws(s, t1), rs, h, s.sizes) && Run(s, t1).sizes == s.sizes
    requires DrawsRegions(Draws(Run(s, t1), t2), [r], h, s.sizes)
    requires var e := Run(Run(s, t1), t2);
      e.sizes == s.sizes && e.enabled == Run(s, t1).enabled - {0, 1} && e.program == Some(h.program)
    ensures DrawsRegions(Draws(s, t1 + t2), rs + [r], h, s.sizes)
    ensures var e := Run(s, t1 + t2);
      e.sizes == s.sizes && e.enabled == Run(s, t1).enabled - {0, 1} && e.program == Some(h.program)
  {
    RunAppend(s, t1, t2);
    DrawsAppend(s, t1, t2);
    DrawsRegionsSnoc(Draws(s, t1), rs, Draws(Run(s, t1), t2), r, h, s.sizes);
  }

  /** The passes for rs draw cube and axes into each viewport of rs in turn, never changing
      a buffer, and leave both attribute slots disabled. */
  lemma {:induction false} RegionsEffect(s: GlState, rs: seq<Rect>, h: Handles)
    ensures DrawsRegions(Draws(s, RegionsCmds(rs, h)), rs, h, s.sizes)
    ensures Run(s, RegionsCmds(rs, h)).sizes == s.sizes
    ensures rs != [] ==> Run(s, RegionsCmds(rs, h)).enabled == s.enabled - {0, 1} &&
                         Run(s, RegionsCmds(rs, h)).program == Some(h.program)
    decreases |rs|
  {
    if rs != [] {
      var init, r := rs[..|rs| - 1], rs[|rs| - 1];
      assert init + [r] == rs;
      RegionsEffect(s, init, h);
      var s1 := Run(s, RegionsCmds(init, h));
      RegionEffect(s1, r, h);
      RegionsStep(s, RegionsCmds(init, h), RegionCmds(r, h), init, r, h);
      assert RegionsCmds(rs, h) == RegionsCmds(init, h) + RegionCmds(r, h);
    } else {
      assert DrawsRegions([], [], h, s.sizes);
    }
  }

  /** A frame draws eight times: cube and axes into each quarter of the framebuffer, in the
      order of the viewport list, and ends with the whole framebuffer as the viewport. */
  lemma FrameEffect(s: GlState, width: nat, height: nat, h: Handles)
    ensures DrawsRegions(Draws(s, FrameCmds(width, height, h)), Quadrants(width, height), h, s.sizes)
    ensures |Draws(s, FrameCmds(width, height, h))| == 8
    ensures var e := Run(s, FrameCmds(width, height, h));
      e.sizes == s.sizes && e.viewport == Some(Rect(0, 0, width, height)) &&
      e.enabled == s.enabled - {0, 1} && e.program == Some(h.program)
  {
    var vs := Quadrants(width, height);
    var last := [SetViewport(Rect(0, 0, width, height))];
    One(s, Clear);
    RegionsEffect(s, vs, h);
    var s1 := Run(s, RegionsCmds(vs, h));
    One(s1, last[0]);
    RunAppend(s, [Clear], RegionsCmds(vs, h));
    DrawsAppend(s, [Clear], RegionsCmds(vs, h));
    RunAppend(s, [Clear] + RegionsCmds(vs, h), last);
    DrawsAppend(s, [Clear] + RegionsCmds(vs, h), last);
    assert Draws(s, FrameCmds(width, height, h)) == Draws(s, RegionsCmds(vs, h));
  }

  /** A draw of either kind, as the frames issue them, with the buffer sizes it sees. */
  predicate FrameDraw(d: DrawCall, h: Handles, sizes: map<Obj, nat>)
  {
    d.first == 0 && d.state.sizes == sizes &&
    ((d.count == CubeVertexCount && Reads(d, 0, h.vertices) && Reads(d, 1, h.colours)) ||
     (d.count == AxisVertexCount && Reads(d, 0, h.axisVertices) && Reads(d, 1, h.axisColours)))
  }

  lemma FrameDraws(s: GlState, width: nat, height: nat, h: Handles)
    ensures forall d :: d in Draws(s, FrameCmds(width, height, h)) ==> FrameDraw(d, h, s.sizes)
  {
    FrameEffect(s, width, height, h);
    var ds := Draws(s, FrameCmds(width, height, h));
    var vs := Quadrants(width, height);
    forall d | d in ds
      ensures FrameDraw(d, h, s.sizes)
    {
      var i :| 0 <= i < |ds| && ds[i] == d;
      var k := i / 2;
      assert DrawsCube(ds[2 * k], vs[k], h, s.sizes) && DrawsAxes(ds[2 * k + 1], vs[k], h, s.sizes);
      assert i == 2 * k || i == 2 * k + 1;
    }
  }

  /** Over any number of frames the program draws eight times a frame, each draw reading the
      cube's or the axes' buffers, and no frame changes a buffer. */
  lemma {:induction false} FramesEffect(s: GlState, frames: seq<(nat, nat)>, h: Handles)
    ensures |Draws(s, FramesCmds(frames, h))| == 8 * |frames|
    ensures forall d :: d in Draws(s, FramesCmds(frames, h)) ==> FrameDraw(d, h, s.sizes)
    ensures Run(s, FramesCmds(frames, h)).sizes == s.sizes
    decreases |frames|
  {
    if frames != [] {
      var init, f := frames[..|frames| - 1], frames[|frames| - 1];
      FramesEffect(s, init, h);
      var s1 := Run(s, FramesCmds(init, h));
      FrameEffect(s1, f.0, f.1, h);
      FrameDraws(s1, f.0, f.1, h);
      RunAppend(s, FramesCmds(init, h), FrameCmds(f.0, f.1, h));
      DrawsAppend(s, FramesCmds(init, h), FrameCmds(f.0, f.1, h));
    }
  }

  /** The set-up draws nothing and leaves each buffer holding its array. */
  lemma SetupEffect(s: GlState, h: Handles)
    ensures Draws(s, SetupCmds(h)) == []
    ensures Run(s, SetupCmds(h)).sizes ==
      s.sizes[h.axisVertices := 18][h.axisColours := 18][h.vertices := 108][h.colours := 108]
  {
    var axes := Upload(h.axisVertices, 18) + Upload(h.axisColours, 18);
    var bind := [BindVertexArray(h.vertexArray)];
    var cube := Upload(h.vertices, 108) + Upload(h.colours, 108);
    assert SetupCmds(h) == axes + bind + cube;
    UploadTwoEffect(s, h.axisVertices, 18, h.axisColours, 18);
    var s1 := Run(s, axes);
    One(s1, bind[0]);
    UploadTwoEffect(Run(s1, bind), h.vertices, 108, h.colours, 108);
    ThreeParts(s, axes, bind, cube);
  }

  /** Every draw of the program, in every frame, takes all its vertices from inside the
      buffers its two attribute slots read: 36 vertices from 108-float arrays, 6 from 18. */
  lemma SessionDrawsInBounds(s: GlState, frames: seq<(nat, nat)>, h: Handles)
    requires DistinctBuffers(h)
    ensures |Draws(s, SessionCmds(frames, h))| == 8 * |frames|
    ensures forall d :: d in Draws(s, SessionCmds(frames, h)) ==> InBounds(d, 0) && InBounds(d, 1)
  {
    var pre := [Clear] + SetupCmds(h);
    One(s, Clear);
    SetupEffect(s, h);
    RunAppend(s, [Clear], SetupCmds(h));
    DrawsAppend(s, [Clear], SetupCmds(h));
    var s1 := Run(s, pre);
    FramesEffect(s1, frames, h);
    DrawsAppend(s, pre, FramesCmds(frames, h));
    assert Draws(s, SessionCmds(frames, h)) == Draws(s1, FramesCmds(frames, h));
    assert s1.sizes[h.vertices] == 108 && s1.sizes[h.colours] == 108;
    assert s1.sizes[h.axisVertices] == 18 && s1.sizes[h.axisColours] == 18;
  }

  /** `carregarShaders`: both shader files are read line by line, then the program is built. */
  method LoadShaders(gl: Gl, vertexFile: Option<seq<string>>, fragmentFile: Option<seq<string>>, outcome: Outcome)
      returns (program: Obj)
    requires gl.Valid()
    modifies gl
    ensures gl.Valid()
    ensures program == Obj(ProgramObject, old(gl.next) + 2)
    ensures gl.live == old(gl.live) + {program} && gl.next == old(gl.next) + 3 && gl.trace == old(gl.trace)
  {
    var vertexSource := ReadShaderSource(vertexFile);
    var fragmentSource := ReadShaderSource(fragmentFile);
    var report;
    program, report := LoadProgram(gl, vertexSource, fragmentSource, outcome);
  }

  /** The program's globals and the driver it talks to. */
  class CubeApp {
    const gl: Gl
    var vertexArray: Obj
    var program: Obj
    var vertexBuffer: Obj
    var colourBuffer: Obj
    var axisVertexBuffer: Obj
    var axisColourBuffer: Obj

    function Current(): Handles
      reads this
    {
      Handles(vertexArray, program, vertexBuffer, colourBuffer, axisVertexBuffer, axisColourBuffer)
    }

    constructor (gl: Gl)
      ensures this.gl == gl
    {
      this.gl := gl;
    }

    /** `inicializarDadosEixos`. */
    method InitAxes()
      requires gl.Valid()
      modifies gl, this`axisVertexBuffer, this`axisColourBuffer
      ensures gl.Valid()
      ensures axisVertexBuffer == Obj(BufferObject, old(gl.next)) && axisColourBuffer == Obj(BufferObject, old(gl.next) + 1)
      ensures gl.live == old(gl.live) + {axisVertexBuffer, axisColourBuffer} && gl.next == old(gl.next) + 2
      ensures gl.trace == old(gl.trace) + Upload(axisVertexBuffer, AxisFloats) +
                                          Upload(axisColourBuffer, AxisFloats)
    {
      axisVertexBuffer := gl.Create(BufferObject);
      IssueUpload(gl, axisVertexBuffer, AxisFloats);
      axisColourBuffer := gl.Create(BufferObject);
      IssueUpload(gl, axisColourBuffer, AxisFloats);
    }

    /** `transferirDadosParaMemoriaGPU`. */
    method TransferData(vertexFile: Option<seq<string>>, fragmentFile: Option<seq<string>>, outcome: Outcome)
      requires gl.Valid()
      modifies gl, this
      ensures gl.Valid()
      ensures Current() == Allocated(old(gl.next))
      ensures gl.live == old(gl.live) + Owned(Current()) && gl.next == old(gl.next) + 8
      ensures gl.trace == old(gl.trace) + SetupCmds(Current())
    {
      ghost var n, t, l := gl.next, gl.trace, gl.live;
      InitAxes();
      vertexArray := gl.Create(VertexArrayObject);
      gl.Issue(BindVertexArray(vertexArray));
      program := LoadShaders(gl, vertexFile, fragmentFile, outcome);
      ghost var before := gl.trace;
      UploadCube();
      SetupTrace(t, before, gl.trace, Current());
      assert Current() == Allocated(n);
    }

    /** The cube's two buffers, created and filled one after the other. */
    method UploadCube()
      requires gl.Valid()
      modifies gl, this`vertexBuffer, this`colourBuffer
      ensures gl.Valid()
      ensures vertexBuffer == Obj(BufferObject, old(gl.next)) && colourBuffer == Obj(BufferObject, old(gl.next) + 1)
      ensures gl.live == old(gl.live) + {vertexBuffer, colourBuffer} && gl.next == old(gl.next) + 2
      ensures gl.trace == old(gl.trace) + (Upload(vertexBuffer, CubeFloats) + Upload(colourBuffer, CubeFloats))
    {
      vertexBuffer := gl.Create(BufferObject);
      IssueUpload(gl, vertexBuffer, CubeFloats);
      colourBuffer := gl.Create(BufferObject);
      IssueUpload(gl, colourBuffer, CubeFloats);
    }

    /** `desenharEixos`. */
    method DrawAxes()
      modifies gl
      ensures gl.trace == old(gl.trace) + AxisCmds(Current())
      ensures gl.live == old(gl.live) && gl.next == old(gl.next) && gl.Valid() == old(gl.Valid())
    {
      IssueFeed(gl, 0, axisVertexBuffer);
      IssueFeed(gl, 1, axisColourBuffer);
      IssueDrawAndDisable(gl, Lines, AxisVertexCount);
    }

    /** One pass of the loop of `desenhar`: the viewport, the program and its matrix, the
        cube from slots 0 and 1, then the axes. */
    method DrawRegion(r: Rect)
      modifies gl
      ensures gl.trace == old(gl.trace) + RegionCmds(r, Current())
      ensures gl.live == old(gl.live) && gl.next == old(gl.next) && gl.Valid() == old(gl.Valid())
    {
      gl.Issue(SetViewport(r));
      gl.Issue(UseProgram(program));
      gl.Issue(SetMatrix);
      ghost var head := gl.trace;
      DrawCube();
      DrawAxes();
      assert gl.trace == head + CubeCmds(Current()) + AxisCmds(Current());
    }

    /** The cube's part of a pass: slots 0 and 1 fed from the cube's buffers, then its
        triangles drawn. */
    method DrawCube()
      modifies gl
      ensures gl.trace == old(gl.trace) + CubeCmds(Current())
      ensures gl.live == old(gl.live) && gl.next == old(gl.next) && gl.Valid() == old(gl.Valid())
    {
      IssueFeed(gl, 0, vertexBuffer);
      IssueFeed(gl, 1, colourBuffer);
      IssueDrawAndDisable(gl, Triangles, CubeVertexCount);
    }

    /** `desenhar`, given the size `glfwGetFramebufferSize` reports. */
    method DrawFrame(width: nat, height: nat)
      modifies gl
      ensures gl.trace == old(gl.trace) + FrameCmds(width, height, Current())
      ensures gl.live == old(gl.live) && gl.next == old(gl.next) && gl.Valid() == old(gl.Valid())
    {
      gl.Issue(Clear);
      var viewports := Quadrants(width, height);
      DrawRegions(viewports);
      gl.Issue(SetViewport(Rect(0, 0, width, height)));
    }

    /** The loop of `desenhar` over its list of viewports. */
    method DrawRegions(viewports: seq<Rect>)
      modifies gl
      ensures gl.trace == old(gl.trace) + RegionsCmds(viewports, Current())
      ensures gl.live == old(gl.live) && gl.next == old(gl.next) && gl.Valid() == old(gl.Valid())
    {
      ghost var h, t := Current(), gl.trace;
      var i := 0;
      while i < |viewports|
        invariant 0 <= i <= |viewports|
        invariant gl.trace == t + RegionsCmds(viewports[..i], h)
        invariant gl.live == old(gl.live) && gl.next == old(gl.next) && gl.Valid() == old(gl.Valid())
      {
        RegionsTrace(t, gl.trace, viewports, i, h);
        DrawRegion(viewports[i]);
        i := i + 1;
      }
      assert viewports[..i] == viewports;
    }

    /** `limparDadosDaGPU`. */
    method CleanUp()
      requires gl.Valid()
      modifies gl
      ensures gl.Valid()
      ensures gl.live == old(gl.live) - Released(Current())
      ensures gl.next == old(gl.next) && gl.trace == old(gl.trace)
    {
      gl.Delete(vertexBuffer);
      gl.Delete(colourBuffer);
      gl.Delete(vertexArray);
      gl.Delete(program);
    }

    /** The teardown with the axis buffers deleted as well. */
    method CleanUpAll()
      requires gl.Valid()
      modifies gl
      ensures gl.Valid()
      ensures gl.live == old(gl.live) - Owned(Current())
      ensures gl.next == old(gl.next) && gl.trace == old(gl.trace)
    {
      CleanUp();
      gl.Delete(axisVertexBuffer);
      gl.Delete(axisColourBuffer);
    }

    /** The frames loop of `main`, a do-while: at least one frame is drawn. */
    method DrawFrames(frames: seq<(nat, nat)>)
      requires |frames| >= 1
      modifies gl
      ensures gl.trace == old(gl.trace) + FramesCmds(frames, Current())
      ensures gl.live == old(gl.live) && gl.next == old(gl.next) && gl.Valid() == old(gl.Valid())
    {
      ghost var h, t := Current(), gl.trace;
      assert frames[..0] == [];
      FramesTrace(t, gl.trace, frames, 0, h);
      DrawFrame(frames[0].0, frames[0].1);
      var i := 1;
      while i < |frames|
        invariant 1 <= i <= |frames|
        invariant gl.trace == t + FramesCmds(frames[..i], h)
        invariant gl.live == old(gl.live) && gl.next == old(gl.next) && gl.Valid() == old(gl.Valid())
      {
        FramesTrace(t, gl.trace, frames, i, h);
        DrawFrame(frames[i].0, frames[i].1);
        i := i + 1;
      }
      assert frames[..i] == frames;
    }

    /** `main` after the window is open: clear, set up, draw the frames, tear down. Every
        object the set-up created is released except the two axis buffers. */
    method Session(frames: seq<(nat, nat)>, vertexFile: Option<seq<string>>, fragmentFile: Option<seq<string>>,
                   outcome: Outcome)
      requires gl.Valid() && |frames| >= 1
      modifies gl, this
      ensures gl.Valid()
      ensures Current() == Allocated(old(gl.next))
      ensures gl.trace == old(gl.trace) + SessionCmds(frames, Current())
      ensures gl.live == old(gl.live) + {axisVertexBuffer, axisColourBuffer}
    {
      ghost var t, l, next := gl.trace, gl.live, gl.next;
      gl.Issue(Clear);
      TransferData(vertexFile, fragmentFile, outcome);
      ghost var h := Current();
      assert h == Allocated(next);
      DrawFrames(frames);
      SessionTrace(t, gl.trace, frames, h);
      CleanUp();
      LiveAfter(l, next, Owned(h), Released(h));
      AxisBuffersLeak(next);
    }

    /** The same session with `CleanUpAll` as the teardown: nothing it created stays live. */
    method SessionCleaningAll(frames: seq<(nat, nat)>, vertexFile: Option<seq<string>>,
                              fragmentFile: Option<seq<string>>, outcome: Outcome)
      requires gl.Valid() && |frames| >= 1
      modifies gl, this
      ensures gl.Valid()
      ensures Current() == Allocated(old(gl.next))
      ensures gl.trace == old(gl.trace) + SessionCmds(frames, Current())
      ensures gl.live == old(gl.live)
    {
      ghost var t, l, next := gl.trace, gl.live, gl.next;
      gl.Issue(Clear);
      TransferData(vertexFile, fragmentFile, outcome);
      ghost var h := Current();
      assert h == Allocated(next);
      DrawFrames(frames);
      SessionTrace(t, gl.trace, frames, h);
      CleanUpAll();
      LiveAfter(l, next, Owned(h), Owned(h));
    }
  }
}
