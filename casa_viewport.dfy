/** The house drawn four times (`casa/casa-viewport.cpp` and `casa/casa-viewport.py`): three
    triangles are uploaded once and drawn, every frame, into each cell of a 2 × 2 grid of
    viewports of (W/2) × (H/2) pixels. The two programs share the data and the grid; they
    differ in where the attribute slots are set up, in when the framebuffer is cleared, in
    the order objects are created and in what a shader failure does. */
module CasaViewport {
  import opened Results
  import opened Layout
  import opened GlTrace
  import opened Shaders
  import opened Vertices

  /** `dadosBufferVertices`: two red triangles making the square [0, 20]², and a roof. */
  const HouseTriangles: seq<seq<Point>> := [
    [Point(0.0, 0.0, 0.0), Point(20.0, 0.0, 0.0), Point(20.0, 20.0, 0.0)],
    [Point(0.0, 0.0, 0.0), Point(20.0, 20.0, 0.0), Point(0.0, 20.0, 0.0)],
    [Point(0.0, 20.0, 0.0), Point(20.0, 20.0, 0.0), Point(10.0, 30.0, 0.0)]]

  /** `dadosBufferCores`: one colour per vertex. */
  const HouseColours: seq<seq<Point>> := [[Red, Red, Red], [Red, Red, Red], [Green, Green, Green]]

  const HouseVertexCount: nat := 9
  const HouseFloats: nat := 27

  /** Both arrays hold 27 floats, three for each of the 9 vertices `glDrawArrays` draws. */
  lemma HouseBufferSizes()
    ensures |FaceFloats(HouseTriangles)| == HouseFloats && |FaceFloats(HouseColours)| == HouseFloats
    ensures HouseFloats == 3 * HouseVertexCount
  {
    FaceFloatsLength(HouseTriangles, 3);
    FaceFloatsLength(HouseColours, 3);
  }

  /** The house lies in the plane z = 0; the two walls share the square's diagonal and
      between them use its four corners; the roof stands on the square's top edge, with its
      apex above the middle of that edge. */
  lemma HouseShape()
    ensures forall t, i :: 0 <= t < 3 && 0 <= i < 3 ==> HouseTriangles[t][i].z == 0.0
    ensures HouseTriangles[0][0] == HouseTriangles[1][0] == Point(0.0, 0.0, 0.0)
    ensures HouseTriangles[0][2] == HouseTriangles[1][1] == Point(20.0, 20.0, 0.0)
    ensures HouseTriangles[0][1] == Point(20.0, 0.0, 0.0) && HouseTriangles[1][2] == Point(0.0, 20.0, 0.0)
    ensures HouseTriangles[2][0] == HouseTriangles[1][2] && HouseTriangles[2][1] == HouseTriangles[0][2]
    ensures var roof := HouseTriangles[2];
      2.0 * roof[2].x == roof[0].x + roof[1].x && roof[2].y > roof[0].y == roof[1].y
  {
  }

  /** The walls are red and the roof is green. */
  lemma HouseColoured()
    ensures forall i :: 0 <= i < 3 ==> HouseColours[0][i] == Red && HouseColours[1][i] == Red
    ensures forall i :: 0 <= i < 3 ==> HouseColours[2][i] == Green
  {
  }

  datatype Variant = Cpp | Py

  /** The objects a program draws with. */
  datatype House = House(vertexArray: Obj, program: Obj, vertices: Obj, colours: Obj)

  /** The names the driver hands out from n on: `TransferirDadosParaGPU` creates the vertex
      array and the two buffers before `CarregarShaders` creates two shaders and the program
      in the C++ program; the Python program builds the program between the vertex array and
      the buffers. */
  function Allocated(v: Variant, n: nat): House
  {
    if v == Cpp then
      House(Obj(VertexArrayObject, n), Obj(ProgramObject, n + 5), Obj(BufferObject, n + 1), Obj(BufferObject, n + 2))
    else
      House(Obj(VertexArrayObject, n), Obj(ProgramObject, n + 3), Obj(BufferObject, n + 4), Obj(BufferObject, n + 5))
  }

  /** What `LimparDadosDaGPU` deletes. */
  function Owned(o: House): set<Obj>
  {
    {o.vertices, o.colours, o.vertexArray, o.program}
  }

  /** The set-up hands out four different objects, so the two buffers are distinct. */
  lemma AllocatedDistinct(v: Variant, n: nat)
    ensures var o := Allocated(v, n); |Owned(o)| == 4 && o.vertices != o.colours
  {
    var o := Allocated(v, n);
    assert Owned(o) == {o.vertices} + {o.colours} + {o.vertexArray} + {o.program};
  }

  /** The C++ `TransferirDadosParaGPU` also points slots 0 and 1 at the buffers and enables
      them, once; the Python one leaves that to each draw. */
  function Attributes(v: Variant, o: House): seq<Cmd>
  {
    if v == Cpp then Attach(0, o.vertices) + Attach(1, o.colours) else []
  }

  /** `TransferirDadosParaGPU` as calls. */
  function SetupCmds(v: Variant, o: House): seq<Cmd>
  {
    [BindVertexArray(o.vertexArray)] + Upload(o.vertices, HouseFloats) + Upload(o.colours, HouseFloats) +
    Attributes(v, o)
  }

  /** What `Desenhar` does after setting the program and its matrix: the C++ version binds
      the vertex array and draws; the Python version feeds both slots, draws and disables
      them again. */
  function Body(v: Variant, o: House): seq<Cmd>
  {
    if v == Cpp then [BindVertexArray(o.vertexArray), DrawArrays(Triangles, 0, HouseVertexCount)]
    else Feed(0, o.vertices) + Feed(1, o.colours) + DrawAndDisable(Triangles, HouseVertexCount)
  }

  /** `Desenhar`. */
  function DrawCmds(v: Variant, o: House): seq<Cmd>
  {
    [UseProgram(o.program), SetMatrix] + Body(v, o)
  }

  /** One pass of the inner loop: the cell's viewport, then `Desenhar`. */
  function CellCmds(v: Variant, r: Rect, o: House): seq<Cmd>
  {
    [SetViewport(r)] + DrawCmds(v, o)
  }

  /** The passes for the cells rs, in order. */
  function CellsCmds(v: Variant, rs: seq<Rect>, o: House): seq<Cmd>
    decreases |rs|
  {
    if rs == [] then [] else CellsCmds(v, rs[..|rs| - 1], o) + CellCmds(v, rs[|rs| - 1], o)
  }

  lemma CellsSnoc(v: Variant, rs: seq<Rect>, i: nat, o: House)
    requires i < |rs|
    ensures CellsCmds(v, rs[..i + 1], o) == CellsCmds(v, rs[..i], o) + CellCmds(v, rs[i], o)
  {
    assert rs[..i + 1][..i] == rs[..i];
  }

  /** A trace holding the passes for the first k cells, extended by the next pass. */
  lemma CellsTrace(v: Variant, t: seq<Cmd>, trace: seq<Cmd>, rs: seq<Rect>, k: nat, o: House)
    requires k < |rs| && trace == t + CellsCmds(v, rs[..k], o)
    ensures trace + CellCmds(v, rs[k], o) == t + CellsCmds(v, rs[..k + 1], o)
  {
    var before, cell := CellsCmds(v, rs[..k], o), CellCmds(v, rs[k], o);
    CellsSnoc(v, rs, k, o);
    Extend(t, before, cell, CellsCmds(v, rs[..k + 1], o));
  }

  /** The start of a frame: the default framebuffer is bound, and the C++ program clears. */
  function FramePrefix(v: Variant): seq<Cmd>
  {
    if v == Cpp then [BindFramebuffer(0), Clear] else [BindFramebuffer(0)]
  }

  /** One pass of the render loop, with regions of the given size. */
  function FrameCmds(v: Variant, regionWidth: int, regionHeight: int, o: House): seq<Cmd>
  {
    FramePrefix(v) + CellsCmds(v, GridOrder(regionWidth, regionHeight), o)
  }

  /** A trace holding the frame's start and its four cells is a trace of the frame. */
  lemma FrameTrace(v: Variant, t: seq<Cmd>, trace: seq<Cmd>, regionWidth: int, regionHeight: int, o: House)
    requires trace == t + FramePrefix(v) + CellsCmds(v, GridOrder(regionWidth, regionHeight)[..4], o)
    ensures trace == t + FrameCmds(v, regionWidth, regionHeight, o)
  {
    var cells := GridOrder(regionWidth, regionHeight);
    assert |cells| == 4 && cells[..|cells|] == cells;
    Extend(t, FramePrefix(v), CellsCmds(v, cells, o), FrameCmds(v, regionWidth, regionHeight, o));
  }

  /** n passes of the render loop; the region size is computed once, before the loop. */
  function FramesCmds(v: Variant, n: nat, regionWidth: int, regionHeight: int, o: House): seq<Cmd>
  {
    if n == 0 then [] else FramesCmds(v, n - 1, regionWidth, regionHeight, o) + FrameCmds(v, regionWidth, regionHeight, o)
  }

  /** A trace holding k frames, extended by one more. */
  lemma FramesTrace(v: Variant, t: seq<Cmd>, trace: seq<Cmd>, k: nat, regionWidth: int, regionHeight: int, o: House)
    requires trace == t + FramesCmds(v, k, regionWidth, regionHeight, o)
    ensures trace + FrameCmds(v, regionWidth, regionHeight, o) == t + FramesCmds(v, k + 1, regionWidth, regionHeight, o)
  {
    var before, frame := FramesCmds(v, k, regionWidth, regionHeight, o), FrameCmds(v, regionWidth, regionHeight, o);
    assert FramesCmds(v, k + 1, regionWidth, regionHeight, o) == before + frame;
    Extend(t, before, frame, FramesCmds(v, k + 1, regionWidth, regionHeight, o));
  }

  /** The single clear the Python program issues before its render loop. */
  function FirstClear(v: Variant): seq<Cmd>
  {
    if v == Py then [Clear] else []
  }

  /** All of `main` after the window is open, for n frames of a W × H framebuffer. */
  function SessionCmds(v: Variant, n: nat, width: nat, height: nat, o: House): seq<Cmd>
  {
    SetupCmds(v, o) + FirstClear(v) + FramesCmds(v, n, width / 2, height / 2, o)
  }

  /** A trace that ran the set-up, the first clear and n frames is a trace of the session. */
  lemma SessionTrace(v: Variant, t: seq<Cmd>, trace: seq<Cmd>, n: nat, width: nat, height: nat, o: House)
    requires trace == t + SetupCmds(v, o) + FirstClear(v) + FramesCmds(v, n, width / 2, height / 2, o)
    ensures trace == t + SessionCmds(v, n, width, height, o)
  {
  }

  /** Slots 0 and 1 are enabled and read the vertex and colour buffers. */
  predicate Ready(s: GlState, o: House)
  {
    0 in s.enabled && 1 in s.enabled && 0 in s.sources && 1 in s.sources &&
    s.sources[0] == o.vertices && s.sources[1] == o.colours
  }

  /** What the C++ program relies on between draws: the slots stay as the set-up left them. */
  predicate Keeps(v: Variant, s: GlState, o: House)
  {
    v == Cpp ==> Ready(s, o)
  }

  /** The house's draw in viewport r: 9 vertices from the vertex and colour buffers. */
  predicate DrawsHouse(d: DrawCall, r: Rect, o: House, sizes: map<Obj, nat>)
  {
    d.primitive == Triangles && d.first == 0 && d.count == HouseVertexCount &&
    Reads(d, 0, o.vertices) && Reads(d, 1, o.colours) &&
    d.state.viewport == Some(r) && d.state.program == Some(o.program) && d.state.sizes == sizes
  }

  /** One draw per cell, in the order of the cells. */
  predicate DrawsCells(ds: seq<DrawCall>, rs: seq<Rect>, o: House, sizes: map<Obj, nat>)
  {
    |ds| == |rs| && forall k :: 0 <= k < |rs| ==> DrawsHouse(ds[k], rs[k], o, sizes)
  }

  /** The C++ body: the draw sees the slots the set-up left, and nothing changes them. */
  lemma CppBodyEffect(s: GlState, o: House)
    requires Ready(s, o)
    ensures var ds := Draws(s, Body(Cpp, o)); var e := Run(s, Body(Cpp, o));
      |ds| == 1 && ds[0] == DrawCall(Triangles, 0, HouseVertexCount, s) &&
      e.sizes == s.sizes && e.program == s.program && Ready(e, o)
  {
    Two(s, BindVertexArray(o.vertexArray), DrawArrays(Triangles, 0, HouseVertexCount));
  }

  /** One pass draws the house into r, with the program in use, and changes no buffer; the
      C++ slots stay ready. */
  lemma CellEffect(v: Variant, s: GlState, r: Rect, o: House)
    requires Keeps(v, s, o)
    ensures DrawsCells(Draws(s, CellCmds(v, r, o)), [r], o, s.sizes)
    ensures var e := Run(s, CellCmds(v, r, o)); e.sizes == s.sizes && Keeps(v, e, o)
  {
    var head := [SetViewport(r)];
    One(s, SetViewport(r));
    var s1 := Run(s, head);
    DrawEffect(v, s1, r, o);
    RunAppend(s, head, DrawCmds(v, o));
    DrawsAppend(s, head, DrawCmds(v, o));
  }

  /** `Desenhar` draws the house into the viewport already set, with the program in use, and
      changes no buffer; the C++ slots stay ready. */
  lemma DrawEffect(v: Variant, s: GlState, r: Rect, o: House)
    requires Keeps(v, s, o) && s.viewport == Some(r)
    ensures DrawsCells(Draws(s, DrawCmds(v, o)), [r], o, s.sizes)
    ensures var e := Run(s, DrawCmds(v, o)); e.sizes == s.sizes && Keeps(v, e, o)
  {
    var head := [UseProgram(o.program), SetMatrix];
    Two(s, UseProgram(o.program), SetMatrix);
    var s1 := Run(s, head);
    if v == Cpp {
      CppBodyEffect(s1, o);
    } else {
      FeedTwoAndDraw(s1, o.vertices, o.colours, Triangles, HouseVertexCount);
    }
    RunAppend(s, head, Body(v, o));
    DrawsAppend(s, head, Body(v, o));
    assert Draws(s, DrawCmds(v, o)) == Draws(s1, Body(v, o));
  }

  lemma DrawsCellsSnoc(ds: seq<DrawCall>, rs: seq<Rect>, es: seq<DrawCall>, r: Rect, o: House, sizes: map<Obj, nat>)
    requires DrawsCells(ds, rs, o, sizes) && DrawsCells(es, [r], o, sizes)
    ensures DrawsCells(ds + es, rs + [r], o, sizes)
  {
    var all, rall := ds + es, rs + [r];
    forall k | 0 <= k < |rall|
      ensures DrawsHouse(all[k], rall[k], o, sizes)
    {
      if k < |rs| {
        assert all[k] == ds[k] && rall[k] == rs[k];
      } else {
        assert all[k] == es[0] && rall[k] == r;
      }
    }
  }

  /** Running t1 and then t2, one more cell's draw after those of t1. */
  lemma CellsStep(v: Variant, s: GlState, t1: seq<Cmd>, t2: seq<Cmd>, rs: seq<Rect>, r: Rect, o: House)
    requires DrawsCells(Draws(s, t1), rs, o, s.sizes) && Run(s, t1).sizes == s.sizes
    requires DrawsCells(Draws(Run(s, t1), t2), [r], o, s.sizes)
    requires var e := Run(Run(s, t1), t2); e.sizes == s.sizes && Keeps(v, e, o)
    ensures DrawsCells(Draws(s, t1 + t2), rs + [r], o, s.sizes)
    ensures var e := Run(s, t1 + t2); e.sizes == s.sizes && Keeps(v, e, o)
  {
    RunAppend(s, t1, t2);
    DrawsAppend(s, t1, t2);
    DrawsCellsSnoc(Draws(s, t1), rs, Draws(Run(s, t1), t2), r, o, s.sizes);
  }

  /** The passes for rs draw the house once into each cell of rs, in turn, and change no
      buffer. */
  lemma {:induction false} CellsEffect(v: Variant, s: GlState, rs: seq<Rect>, o: House)
    requires Keeps(v, s, o)
    ensures DrawsCells(Draws(s, CellsCmds(v, rs, o)), rs, o, s.sizes)
    ensures var e := Run(s, CellsCmds(v, rs, o)); e.sizes == s.sizes && Keeps(v, e, o)
    decreases |rs|
  {
    if rs != [] {
      var init, r := rs[..|rs| - 1], rs[|rs| - 1];
      assert init + [r] == rs;
      CellsEffect(v, s, init, o);
      var s1 := Run(s, CellsCmds(v, init, o));
      CellEffect(v, s1, r, o);
      CellsStep(v, s, CellsCmds(v, init, o), CellCmds(v, r, o), init, r, o);
    } else {
      assert DrawsCells([], [], o, s.sizes);
    }
  }

  lemma PrefixEffect(v: Variant, s: GlState)
    ensures Run(s, FramePrefix(v)) == s && Draws(s, FramePrefix(v)) == []
  {
    if v == Cpp {
      Two(s, BindFramebuffer(0), Clear);
    } else {
      One(s, BindFramebuffer(0));
    }
  }

  /** A frame of a W × H framebuffer draws the house four times, once into each quarter, in
      the order of the cube program's viewport list, and changes no buffer. */
  lemma FrameEffect(v: Variant, s: GlState, width: nat, height: nat, o: House)
    requires Keeps(v, s, o)
    ensures DrawsCells(Draws(s, FrameCmds(v, width / 2, height / 2, o)), Quadrants(width, height), o, s.sizes)
    ensures var e := Run(s, FrameCmds(v, width / 2, height / 2, o)); e.sizes == s.sizes && Keeps(v, e, o)
  {
    var cells := GridOrder(width / 2, height / 2);
    GridIsQuadrants(width, height);
    PrefixEffect(v, s);
    CellsEffect(v, s, cells, o);
    RunAppend(s, FramePrefix(v), CellsCmds(v, cells, o));
    DrawsAppend(s, FramePrefix(v), CellsCmds(v, cells, o));
  }

  /** The draws of n frames: four a frame, the i-th into quarter i mod 4. */
  predicate DrawsFrames(ds: seq<DrawCall>, n: nat, width: nat, height: nat, o: House, sizes: map<Obj, nat>)
  {
    |ds| == 4 * n && forall i :: 0 <= i < |ds| ==> DrawsHouse(ds[i], Quadrants(width, height)[i % 4], o, sizes)
  }

  lemma DrawsFramesSnoc(ds: seq<DrawCall>, es: seq<DrawCall>, n: nat, width: nat, height: nat, o: House,
                        sizes: map<Obj, nat>)
    requires DrawsFrames(ds, n, width, height, o, sizes)
    requires DrawsCells(es, Quadrants(width, height), o, sizes)
    ensures DrawsFrames(ds + es, n + 1, width, height, o, sizes)
  {
    var all := ds + es;
    forall i | 0 <= i < |all|
      ensures DrawsHouse(all[i], Quadrants(width, height)[i % 4], o, sizes)
    {
      if i >= |ds| {
        assert all[i] == es[i - 4 * n];
        assert i % 4 == i - 4 * n;
      } else {
        assert all[i] == ds[i];
      }
    }
  }

  /** n frames draw the house 4n times, the i-th draw into quarter i mod 4, and change no
      buffer. */
  lemma {:induction false} FramesEffect(v: Variant, s: GlState, n: nat, width: nat, height: nat, o: House)
    requires Keeps(v, s, o)
    ensures DrawsFrames(Draws(s, FramesCmds(v, n, width / 2, height / 2, o)), n, width, height, o, s.sizes)
    ensures var e := Run(s, FramesCmds(v, n, width / 2, height / 2, o)); e.sizes == s.sizes && Keeps(v, e, o)
    decreases n
  {
    if n > 0 {
      var t1 := FramesCmds(v, n - 1, width / 2, height / 2, o);
      var t2 := FrameCmds(v, width / 2, height / 2, o);
      FramesEffect(v, s, n - 1, width, height, o);
      FrameEffect(v, Run(s, t1), width, height, o);
      FramesStep(v, s, t1, t2, n - 1, width, height, o);
    }
  }

  /** Running n frames and then one more frame's commands. */
  lemma FramesStep(v: Variant, s: GlState, t1: seq<Cmd>, t2: seq<Cmd>, n: nat, width: nat, height: nat, o: House)
    requires DrawsFrames(Draws(s, t1), n, width, height, o, s.sizes)
    requires var e := Run(s, t1); e.sizes == s.sizes && Keeps(v, e, o)
    requires DrawsCells(Draws(Run(s, t1), t2), Quadrants(width, height), o, Run(s, t1).sizes)
    requires var e := Run(Run(s, t1), t2); e.sizes == Run(s, t1).sizes && Keeps(v, e, o)
    ensures DrawsFrames(Draws(s, t1 + t2), n + 1, width, height, o, s.sizes)
    ensures var e := Run(s, t1 + t2); e.sizes == s.sizes && Keeps(v, e, o)
  {
    RunAppend(s, t1, t2);
    DrawsAppend(s, t1, t2);
    DrawsFramesSnoc(Draws(s, t1), Draws(Run(s, t1), t2), n, width, height, o, s.sizes);
  }

  /** The C++ attribute set-up leaves slots 0 and 1 ready, whatever came before. */
  lemma AttributesEffect(v: Variant, s: GlState, o: House)
    ensures Draws(s, Attributes(v, o)) == []
    ensures var e := Run(s, Attributes(v, o)); e.sizes == s.sizes && Keeps(v, e, o)
  {
    if v == Cpp {
      var d1, d2 := Attach(0, o.vertices), Attach(1, o.colours);
      AttachEffect(s, 0, o.vertices);
      FeedEffect(s, 0, o.vertices);
      var s1 := Run(s, d1);
      AttachEffect(s1, 1, o.colours);
      FeedEffect(s1, 1, o.colours);
      RunAppend(s, d1, d2);
      DrawsAppend(s, d1, d2);
    } else {
      assert Attributes(v, o) == [];
    }
  }

  /** The set-up draws nothing, leaves both buffers holding 27 floats and, in the C++
      program, leaves the slots ready. */
  lemma SetupEffect(v: Variant, s: GlState, o: House)
    ensures Draws(s, SetupCmds(v, o)) == []
    ensures var e := Run(s, SetupCmds(v, o));
      e.sizes == s.sizes[o.vertices := HouseFloats][o.colours := HouseFloats] && Keeps(v, e, o)
  {
    var a := [BindVertexArray(o.vertexArray)];
    var b := Upload(o.vertices, HouseFloats) + Upload(o.colours, HouseFloats);
    var c := Attributes(v, o);
    assert SetupCmds(v, o) == a + b + c;
    One(s, a[0]);
    var s1 := Run(s, a);
    UploadTwoEffect(s1, o.vertices, HouseFloats, o.colours, HouseFloats);
    AttributesEffect(v, Run(s1, b), o);
    ThreeParts(s, a, b, c);
  }

  /** Every draw of either program, in every frame, takes all 9 vertices from inside the two
      27-float buffers its slots read, and lands in one quarter of the framebuffer. */
  lemma SessionDraws(v: Variant, s: GlState, n: nat, width: nat, height: nat, o: House)
    requires o.vertices != o.colours
    ensures var ds := Draws(s, SessionCmds(v, n, width, height, o));
      |ds| == 4 * n &&
      forall i :: 0 <= i < |ds| ==>
        InBounds(ds[i], 0) && InBounds(ds[i], 1) && ds[i].state.viewport == Some(Quadrants(width, height)[i % 4])
  {
    var pre := SetupCmds(v, o) + FirstClear(v);
    SetupEffect(v, s, o);
    var s1 := Run(s, SetupCmds(v, o));
    if v == Py {
      One(s1, Clear);
    }
    RunAppend(s, SetupCmds(v, o), FirstClear(v));
    DrawsAppend(s, SetupCmds(v, o), FirstClear(v));
    var s2 := Run(s, pre);
    assert s2 == s1;
    FramesEffect(v, s2, n, width, height, o);
    DrawsAppend(s, pre, FramesCmds(v, n, width / 2, height / 2, o));
    var ds := Draws(s, SessionCmds(v, n, width, height, o));
    assert ds == Draws(s2, FramesCmds(v, n, width / 2, height / 2, o));
    assert s2.sizes[o.vertices] == HouseFloats && s2.sizes[o.colours] == HouseFloats;
  }

  /** Both programs issue the same draws, view for view: the same number, each with the
      same primitive, vertex range and viewport, whatever buffers each one created. */
  lemma VariantsDrawAlike(s: GlState, t: GlState, n: nat, width: nat, height: nat, oc: House, op: House)
    requires oc.vertices != oc.colours && op.vertices != op.colours
    ensures var ds, es := Draws(s, SessionCmds(Cpp, n, width, height, oc)), Draws(t, SessionCmds(Py, n, width, height, op));
      |ds| == |es| &&
      forall i :: 0 <= i < |ds| ==>
        ds[i].primitive == es[i].primitive && ds[i].first == es[i].first && ds[i].count == es[i].count &&
        ds[i].state.viewport == es[i].state.viewport
  {
    SessionDraws(Cpp, s, n, width, height, oc);
    SessionDraws(Py, t, n, width, height, op);
    var pc, pp := SetupCmds(Cpp, oc) + FirstClear(Cpp), SetupCmds(Py, op) + FirstClear(Py);
    SetupEffect(Cpp, s, oc);
    SetupEffect(Py, t, op);
    One(Run(t, SetupCmds(Py, op)), Clear);
    RunAppend(s, SetupCmds(Cpp, oc), FirstClear(Cpp));
    RunAppend(t, SetupCmds(Py, op), FirstClear(Py));
    DrawsAppend(s, SetupCmds(Cpp, oc), FirstClear(Cpp));
    DrawsAppend(t, SetupCmds(Py, op), FirstClear(Py));
    FramesEffect(Cpp, Run(s, pc), n, width, height, oc);
    FramesEffect(Py, Run(t, pp), n, width, height, op);
    DrawsAppend(s, pc, FramesCmds(Cpp, n, width / 2, height / 2, oc));
    DrawsAppend(t, pp, FramesCmds(Py, n, width / 2, height / 2, op));
  }

  /** How many times a trace clears the framebuffer. */
  function Clears(t: seq<Cmd>): nat
    decreases t
  {
    if t == [] then 0 else (if t[0] == Clear then 1 else 0) + Clears(t[1..])
  }

  lemma {:induction false} ClearsAppend(a: seq<Cmd>, b: seq<Cmd>)
    ensures Clears(a + b) == Clears(a) + Clears(b)
    decreases a
  {
    if a != [] {
      assert (a + b)[0] == a[0] && (a + b)[1..] == a[1..] + b;
      ClearsAppend(a[1..], b);
    } else {
      assert a + b == b;
    }
  }

  lemma {:induction false} NoClears(t: seq<Cmd>)
    requires forall i :: 0 <= i < |t| ==> t[i] != Clear
    ensures Clears(t) == 0
    decreases t
  {
    if t != [] {
      NoClears(t[1..]);
    }
  }

  lemma {:induction false} CellsClearNothing(v: Variant, rs: seq<Rect>, o: House)
    ensures Clears(CellsCmds(v, rs, o)) == 0
    decreases |rs|
  {
    if rs != [] {
      var init, r := rs[..|rs| - 1], rs[|rs| - 1];
      CellsClearNothing(v, init, o);
      NoClears(CellCmds(v, r, o));
      ClearsAppend(CellsCmds(v, init, o), CellCmds(v, r, o));
    }
  }

  lemma PrefixClears(v: Variant)
    ensures Clears(FramePrefix(v)) == if v == Cpp then 1 else 0
  {
    assert [BindFramebuffer(0), Clear][1..] == [Clear];
    assert [Clear][1..] == [] && [BindFramebuffer(0)][1..] == [];
  }

  lemma {:induction false} FramesClears(v: Variant, n: nat, regionWidth: int, regionHeight: int, o: House)
    ensures Clears(FramesCmds(v, n, regionWidth, regionHeight, o)) == if v == Cpp then n else 0
    decreases n
  {
    if n > 0 {
      var cells := GridOrder(regionWidth, regionHeight);
      FramesClears(v, n - 1, regionWidth, regionHeight, o);
      PrefixClears(v);
      CellsClearNothing(v, cells, o);
      ClearsAppend(FramePrefix(v), CellsCmds(v, cells, o));
      ClearsAppend(FramesCmds(v, n - 1, regionWidth, regionHeight, o), FrameCmds(v, regionWidth, regionHeight, o));
    }
  }

  /** The C++ program clears the framebuffer at the start of every frame; the Python program
      clears it once, before its first frame, so each of its frames is drawn over the last. */
  lemma SessionClears(v: Variant, n: nat, width: nat, height: nat, o: House)
    ensures Clears(SessionCmds(v, n, width, height, o)) == if v == Cpp then n else 1
  {
    NoClears(SetupCmds(v, o));
    if v == Py {
      assert FirstClear(v) == [Clear];
      assert [Clear][1..] == [];
    }
    FramesClears(v, n, width / 2, height / 2, o);
    ClearsAppend(SetupCmds(v, o), FirstClear(v));
    ClearsAppend(SetupCmds(v, o) + FirstClear(v), FramesCmds(v, n, width / 2, height / 2, o));
  }

  /** The C++ program's globals and the driver it talks to. */
  class CasaApp {
    const gl: Gl
    var vertexArray: Obj
    var program: Obj
    var vertexBuffer: Obj
    var colourBuffer: Obj

    function Current(): House
      reads this
    {
      House(vertexArray, program, vertexBuffer, colourBuffer)
    }

    constructor (gl: Gl)
      ensures this.gl == gl
    {
      this.gl := gl;
    }

    /** `TransferirDadosParaGPU`. */
    method TransferData()
      requires gl.Valid()
      modifies gl, this`vertexArray, this`vertexBuffer, this`colourBuffer
      ensures gl.Valid()
      ensures vertexArray == Obj(VertexArrayObject, old(gl.next))
      ensures vertexBuffer == Obj(BufferObject, old(gl.next) + 1) && colourBuffer == Obj(BufferObject, old(gl.next) + 2)
      ensures gl.live == old(gl.live) + {vertexArray, vertexBuffer, colourBuffer} && gl.next == old(gl.next) + 3
      ensures gl.trace == old(gl.trace) + SetupCmds(Cpp, Current())
    {
      ghost var t := gl.trace;
      vertexArray := gl.Create(VertexArrayObject);
      gl.Issue(BindVertexArray(vertexArray));
      vertexBuffer := gl.Create(BufferObject);
      IssueUpload(gl, vertexBuffer, HouseFloats);
      colourBuffer := gl.Create(BufferObject);
      IssueUpload(gl, colourBuffer, HouseFloats);
      IssueAttach(gl, 0, vertexBuffer);
      IssueAttach(gl, 1, colourBuffer);
      assert gl.trace == t + [BindVertexArray(vertexArray)] + Upload(vertexBuffer, HouseFloats) +
        Upload(colourBuffer, HouseFloats) + Attach(0, vertexBuffer) + Attach(1, colourBuffer);
    }

    /** `CarregarShaders`, with the shader texts the program embeds. */
    method LoadShaders(vertexSource: string, fragmentSource: string, outcome: Outcome) returns (report: seq<Complaint>)
      requires gl.Valid()
      modifies gl, this`program
      ensures gl.Valid()
      ensures program == Obj(ProgramObject, old(gl.next) + 2)
      ensures gl.live == old(gl.live) + {program} && gl.next == old(gl.next) + 3 && gl.trace == old(gl.trace)
      ensures report == Complaints(outcome)
    {
      program, report := LoadProgram(gl, vertexSource, fragmentSource, outcome);
    }

    /** `Desenhar`. */
    method Draw()
      modifies gl
      ensures gl.trace == old(gl.trace) + DrawCmds(Cpp, Current())
      ensures gl.live == old(gl.live) && gl.next == old(gl.next) && gl.Valid() == old(gl.Valid())
    {
      gl.Issue(UseProgram(program));
      gl.Issue(SetMatrix);
      gl.Issue(BindVertexArray(vertexArray));
      gl.Issue(DrawArrays(Triangles, 0, HouseVertexCount));
    }

    /** The body of the inner loop: `glViewport` for the cell, then `Desenhar`. */
    method DrawCell(r: Rect)
      modifies gl
      ensures gl.trace == old(gl.trace) + CellCmds(Cpp, r, Current())
      ensures gl.live == old(gl.live) && gl.next == old(gl.next) && gl.Valid() == old(gl.Valid())
    {
      gl.Issue(SetViewport(r));
      Draw();
    }

    /** One pass of the render loop: bind the window, clear, and draw into each cell. */
    method DrawFrame(regionWidth: int, regionHeight: int)
      modifies gl
      ensures gl.trace == old(gl.trace) + FrameCmds(Cpp, regionWidth, regionHeight, Current())
      ensures gl.live == old(gl.live) && gl.next == old(gl.next) && gl.Valid() == old(gl.Valid())
    {
      ghost var o := Current();
      ghost var cells := GridOrder(regionWidth, regionHeight);
      gl.Issue(BindFramebuffer(0));
      gl.Issue(Clear);
      ghost var t := gl.trace;
      assert t == old(gl.trace) + FramePrefix(Cpp);
      var i := 0;
      while i < 2
        invariant 0 <= i <= 2
        invariant gl.trace == t + CellsCmds(Cpp, cells[..2 * i], o)
        invariant gl.live == old(gl.live) && gl.next == old(gl.next) && gl.Valid() == old(gl.Valid())
      {
        DrawRow(regionWidth, regionHeight, i, t);
        i := i + 1;
      }
      FrameTrace(Cpp, old(gl.trace), gl.trace, regionWidth, regionHeight, o);
    }

    /** One pass of the outer loop: the cells (i, 0) and (i, 1). */
    method DrawRow(regionWidth: int, regionHeight: int, i: int, ghost t: seq<Cmd>)
      requires 0 <= i < 2
      requires gl.trace == t + CellsCmds(Cpp, GridOrder(regionWidth, regionHeight)[..2 * i], Current())
      modifies gl
      ensures gl.trace == t + CellsCmds(Cpp, GridOrder(regionWidth, regionHeight)[..2 * i + 2], Current())
      ensures gl.live == old(gl.live) && gl.next == old(gl.next) && gl.Valid() == old(gl.Valid())
    {
      ghost var o := Current();
      ghost var cells := GridOrder(regionWidth, regionHeight);
      var j := 0;
      while j < 2
        invariant 0 <= j <= 2
        invariant gl.trace == t + CellsCmds(Cpp, cells[..2 * i + j], o)
        invariant gl.live == old(gl.live) && gl.next == old(gl.next) && gl.Valid() == old(gl.Valid())
      {
        CellsTrace(Cpp, t, gl.trace, cells, 2 * i + j, o);
        GridOrderCell(regionWidth, regionHeight, i, j);
        DrawCell(GridCell(i, j, regionWidth, regionHeight));
        j := j + 1;
      }
    }

    /** The render loop, run for n frames with the region size found before it. */
    method DrawFrames(n: nat, regionWidth: int, regionHeight: int)
      modifies gl
      ensures gl.trace == old(gl.trace) + FramesCmds(Cpp, n, regionWidth, regionHeight, Current())
      ensures gl.live == old(gl.live) && gl.next == old(gl.next) && gl.Valid() == old(gl.Valid())
    {
      ghost var o := Current();
      var k := 0;
      while k < n
        invariant 0 <= k <= n
        invariant gl.trace == old(gl.trace) + FramesCmds(Cpp, k, regionWidth, regionHeight, o)
        invariant gl.live == old(gl.live) && gl.next == old(gl.next) && gl.Valid() == old(gl.Valid())
      {
        FramesTrace(Cpp, old(gl.trace), gl.trace, k, regionWidth, regionHeight, o);
        DrawFrame(regionWidth, regionHeight);
        k := k + 1;
      }
    }

    /** `LimparDadosDaGPU`. */
    method CleanUp()
      requires gl.Valid()
      modifies gl
      ensures gl.Valid()
      ensures gl.live == old(gl.live) - Owned(Current())
      ensures gl.next == old(gl.next) && gl.trace == old(gl.trace)
    {
      gl.Delete(vertexBuffer);
      gl.Delete(colourBuffer);
      gl.Delete(vertexArray);
      gl.Delete(program);
    }

    /** `main` after the window is open, for n frames of a W × H framebuffer: set-up,
        shaders, a framebuffer name, the frames, and the teardown. Every object it created
        is released again, and a refused shader or link is only reported. */
    method Session(n: nat, width: nat, height: nat, vertexSource: string, fragmentSource: string,
                   outcome: Outcome) returns (report: seq<Complaint>)
      requires gl.Valid()
      modifies gl, this
      ensures gl.Valid()
      ensures Current() == Allocated(Cpp, old(gl.next))
      ensures gl.trace == old(gl.trace) + SessionCmds(Cpp, n, width, height, Current())
      ensures gl.live == old(gl.live)
      ensures report == Complaints(outcome)
    {
      ghost var t, l, next := gl.trace, gl.live, gl.next;
      TransferData();
      report := LoadShaders(vertexSource, fragmentSource, outcome);
      var regionWidth, regionHeight := width / 2, height / 2;
      var framebuffer := gl.Create(FramebufferObject);
      assert Current() == Allocated(Cpp, next);
      assert gl.live == l + (Owned(Current()) + {framebuffer});
      DrawFrames(n, regionWidth, regionHeight);
      SessionTrace(Cpp, t, gl.trace, n, width, height, Current());
      CleanUp();
      gl.Delete(framebuffer);
      LiveAfter(l, next, Owned(Current()) + {framebuffer}, Owned(Current()) + {framebuffer});
    }
  }

  /** The Python program's globals and the driver it talks to. */
  class CasaAppPy {
    const gl: Gl
    var vertexArray: Obj
    var program: Obj
    var vertexBuffer: Obj
    var colourBuffer: Obj

    function Current(): House
      reads this
    {
      House(vertexArray, program, vertexBuffer, colourBuffer)
    }

    constructor (gl: Gl)
      ensures this.gl == gl
    {
      this.gl := gl;
    }

    /** `TransferirDadosParaGPU`: the vertex array, then `CarregarShaders`, whose exception
        ends the set-up there, then the two buffers. */
    method TransferData(outcome: Outcome) returns (r: Result<(), ShaderError>)
      requires gl.Valid()
      modifies gl, this
      ensures gl.Valid()
      ensures vertexArray == Obj(VertexArrayObject, old(gl.next))
      ensures r.Success? <==> Accepted(outcome)
      ensures r.Failure? ==> r.error == FirstError(outcome)
      ensures r.Failure? ==> gl.trace == old(gl.trace) + [BindVertexArray(vertexArray)]
      ensures r.Failure? ==> gl.live == old(gl.live) + {vertexArray} + LeftByPy(old(gl.next) + 1, outcome)
      ensures r.Success? ==> Current() == Allocated(Py, old(gl.next))
      ensures r.Success? ==> gl.live == old(gl.live) + Owned(Current()) && gl.next == old(gl.next) + 6
      ensures r.Success? ==> gl.trace == old(gl.trace) + SetupCmds(Py, Current())
    {
      ghost var n, t, l := gl.next, gl.trace, gl.live;
      vertexArray := gl.Create(VertexArrayObject);
      gl.Issue(BindVertexArray(vertexArray));
      var loaded := LoadProgramPy(gl, outcome);
      if loaded.Failure? {
        return Failure(loaded.error);
      }
      program := loaded.value;
      assert gl.live == l + {vertexArray, program};
      UploadHouse();
      r := Success(());
      assert Current() == Allocated(Py, n);
      assert gl.trace == t + [BindVertexArray(vertexArray)] + (Upload(vertexBuffer, HouseFloats) +
        Upload(colourBuffer, HouseFloats));
    }

    /** The two buffers of the house, created and filled one after the other. */
    method UploadHouse()
      requires gl.Valid()
      modifies gl, this`vertexBuffer, this`colourBuffer
      ensures gl.Valid()
      ensures vertexBuffer == Obj(BufferObject, old(gl.next)) && colourBuffer == Obj(BufferObject, old(gl.next) + 1)
      ensures gl.live == old(gl.live) + {vertexBuffer, colourBuffer} && gl.next == old(gl.next) + 2
      ensures gl.trace == old(gl.trace) + (Upload(vertexBuffer, HouseFloats) + Upload(colourBuffer, HouseFloats))
    {
      vertexBuffer := gl.Create(BufferObject);
      IssueUpload(gl, vertexBuffer, HouseFloats);
      colourBuffer := gl.Create(BufferObject);
      IssueUpload(gl, colourBuffer, HouseFloats);
    }

    /** `Desenhar`. */
    method Draw()
      modifies gl
      ensures gl.trace == old(gl.trace) + DrawCmds(Py, Current())
      ensures gl.live == old(gl.live) && gl.next == old(gl.next) && gl.Valid() == old(gl.Valid())
    {
      gl.Issue(UseProgram(program));
      gl.Issue(SetMatrix);
      IssueFeed(gl, 0, vertexBuffer);
      IssueFeed(gl, 1, colourBuffer);
      IssueDrawAndDisable(gl, Triangles, HouseVertexCount);
    }

    /** The body of the inner loop: `glViewport` for the cell, then `Desenhar`. */
    method DrawCell(r: Rect)
      modifies gl
      ensures gl.trace == old(gl.trace) + CellCmds(Py, r, Current())
      ensures gl.live == old(gl.live) && gl.next == old(gl.next) && gl.Valid() == old(gl.Valid())
    {
      gl.Issue(SetViewport(r));
      Draw();
    }

    /** One pass of the render loop: bind the window and draw into each cell. */
    method DrawFrame(regionWidth: int, regionHeight: int)
      modifies gl
      ensures gl.trace == old(gl.trace) + FrameCmds(Py, regionWidth, regionHeight, Current())
      ensures gl.live == old(gl.live) && gl.next == old(gl.next) && gl.Valid() == old(gl.Valid())
    {
      ghost var o := Current();
      ghost var cells := GridOrder(regionWidth, regionHeight);
      gl.Issue(BindFramebuffer(0));
      ghost var t := gl.trace;
      assert t == old(gl.trace) + FramePrefix(Py);
      var i := 0;
      while i < 2
        invariant 0 <= i <= 2
        invariant gl.trace == t + CellsCmds(Py, cells[..2 * i], o)
        invariant gl.live == old(gl.live) && gl.next == old(gl.next) && gl.Valid() == old(gl.Valid())
      {
        DrawRow(regionWidth, regionHeight, i, t);
        i := i + 1;
      }
      FrameTrace(Py, old(gl.trace), gl.trace, regionWidth, regionHeight, o);
    }

    /** One pass of the outer loop: the cells (i, 0) and (i, 1). */
    method DrawRow(regionWidth: int, regionHeight: int, i: int, ghost t: seq<Cmd>)
      requires 0 <= i < 2
      requires gl.trace == t + CellsCmds(Py, GridOrder(regionWidth, regionHeight)[..2 * i], Current())
      modifies gl
      ensures gl.trace == t + CellsCmds(Py, GridOrder(regionWidth, regionHeight)[..2 * i + 2], Current())
      ensures gl.live == old(gl.live) && gl.next == old(gl.next) && gl.Valid() == old(gl.Valid())
    {
      ghost var o := Current();
      ghost var cells := GridOrder(regionWidth, regionHeight);
      var j := 0;
      while j < 2
        invariant 0 <= j <= 2
        invariant gl.trace == t + CellsCmds(Py, cells[..2 * i + j], o)
        invariant gl.live == old(gl.live) && gl.next == old(gl.next) && gl.Valid() == old(gl.Valid())
      {
        CellsTrace(Py, t, gl.trace, cells, 2 * i + j, o);
        GridOrderCell(regionWidth, regionHeight, i, j);
        DrawCell(GridCell(i, j, regionWidth, regionHeight));
        j := j + 1;
      }
    }

    /** The render loop, run for n frames with the region size found before it. */
    method DrawFrames(n: nat, regionWidth: int, regionHeight: int)
      modifies gl
      ensures gl.trace == old(gl.trace) + FramesCmds(Py, n, regionWidth, regionHeight, Current())
      ensures gl.live == old(gl.live) && gl.next == old(gl.next) && gl.Valid() == old(gl.Valid())
    {
      ghost var o := Current();
      var k := 0;
      while k < n
        invariant 0 <= k <= n
        invariant gl.trace == old(gl.trace) + FramesCmds(Py, k, regionWidth, regionHeight, o)
        invariant gl.live == old(gl.live) && gl.next == old(gl.next) && gl.Valid() == old(gl.Valid())
      {
        FramesTrace(Py, old(gl.trace), gl.trace, k, regionWidth, regionHeight, o);
        DrawFrame(regionWidth, regionHeight);
        k := k + 1;
      }
    }

    /** `LimparDadosDaGPU`. */
    method CleanUp()
      requires gl.Valid()
      modifies gl
      ensures gl.Valid()
      ensures gl.live == old(gl.live) - Owned(Current())
      ensures gl.next == old(gl.next) && gl.trace == old(gl.trace)
    {
      gl.Delete(vertexBuffer);
      gl.Delete(colourBuffer);
      gl.Delete(vertexArray);
      gl.Delete(program);
    }

    /** `main` after the window is open, for n frames of a W × H window. An exception from
        `CarregarShaders` ends it right after the vertex array is bound, leaving the vertex
        array and what `CarregarShaders` created behind; otherwise it clears once, draws the
        frames and releases every object it created. */
    method Session(n: nat, width: nat, height: nat, outcome: Outcome) returns (r: Result<(), ShaderError>)
      requires gl.Valid()
      modifies gl, this
      ensures gl.Valid()
      ensures r.Success? <==> Accepted(outcome)
      ensures r.Failure? ==> r.error == FirstError(outcome)
      ensures r.Failure? ==> gl.trace == old(gl.trace) + [BindVertexArray(Obj(VertexArrayObject, old(gl.next)))]
      ensures r.Failure? ==>
        gl.live == old(gl.live) + {Obj(VertexArrayObject, old(gl.next))} + LeftByPy(old(gl.next) + 1, outcome)
      ensures r.Success? ==> Current() == Allocated(Py, old(gl.next))
      ensures r.Success? ==> gl.trace == old(gl.trace) + SessionCmds(Py, n, width, height, Current())
      ensures r.Success? ==> gl.live == old(gl.live)
    {
      ghost var t, l, next := gl.trace, gl.live, gl.next;
      r := TransferData(outcome);
      if r.Failure? {
        return;
      }
      var regionWidth, regionHeight := width / 2, height / 2;
      gl.Issue(Clear);
      DrawFrames(n, regionWidth, regionHeight);
      SessionTrace(Py, t, gl.trace, n, width, height, Current());
      CleanUp();
      LiveAfter(l, next, Owned(Current()), Owned(Current()));
    }
  }
}
