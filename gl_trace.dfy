/** The part of OpenGL that the viewport programs drive, as a trace of the calls they make
    and a replay of those calls over the state the calls change: the bound array buffer,
    how many floats each buffer holds, the buffer each vertex-attribute slot reads, which
    slots are enabled, the program in use and the viewport. Each program creates one vertex
    array object only, so the attribute state that real OpenGL keeps per vertex array object
    is kept here once. Object names come from a counter standing in for the driver. */
module GlTrace {
  import opened Results
  import opened Layout

  /** The kinds of object the programs create. */
  datatype Kind = BufferObject | VertexArrayObject | ProgramObject | ShaderObject | FramebufferObject

  /** An object name as `glGen*` or `glCreate*` hands it out. */
  datatype Obj = Obj(kind: Kind, name: nat)

  datatype Primitive = Triangles | Lines

  /** The calls that matter to what gets drawn where. `BufferData(n)` uploads n floats to the
      bound array buffer; `AttribPointer(k)` points slot k, three floats per vertex, at it. */
  datatype Cmd =
    | Clear
    | SetViewport(rect: Rect)
    | BindFramebuffer(framebuffer: nat)
    | BindVertexArray(vertexArray: Obj)
    | BindArrayBuffer(buffer: Obj)
    | BufferData(floats: nat)
    | AttribPointer(slot: nat)
    | EnableSlot(slot: nat)
    | DisableSlot(slot: nat)
    | UseProgram(program: Obj)
    | SetMatrix
    | DrawArrays(primitive: Primitive, first: nat, count: nat)

  datatype GlState = GlState(
    arrayBuffer: Option<Obj>,
    sizes: map<Obj, nat>,
    sources: map<nat, Obj>,
    enabled: set<nat>,
    program: Option<Obj>,
    viewport: Option<Rect>)

  const Initial: GlState := GlState(None, map[], map[], {}, None, None)

  /** The effect of one call. */
  function Step(s: GlState, c: Cmd): GlState
  {
    match c
    case SetViewport(r) => s.(viewport := Some(r))
    case BindArrayBuffer(b) => s.(arrayBuffer := Some(b))
    case BufferData(n) =>
      if s.arrayBuffer.Some? then s.(sizes := s.sizes[s.arrayBuffer.value := n]) else s
    case AttribPointer(k) =>
      if s.arrayBuffer.Some? then s.(sources := s.sources[k := s.arrayBuffer.value]) else s
    case EnableSlot(k) => s.(enabled := s.enabled + {k})
    case DisableSlot(k) => s.(enabled := s.enabled - {k})
    case UseProgram(p) => s.(program := Some(p))
    case _ => s
  }

  /** The state after a trace of calls. */
  function Run(s: GlState, t: seq<Cmd>): GlState
    decreases t
  {
    if t == [] then s else Run(Step(s, t[0]), t[1..])
  }

  /** A draw call with the state it ran in. */
  datatype DrawCall = DrawCall(primitive: Primitive, first: nat, count: nat, state: GlState)

  function DrawOf(s: GlState, c: Cmd): seq<DrawCall>
  {
    if c.DrawArrays? then [DrawCall(c.primitive, c.first, c.count, s)] else []
  }

  /** The draw calls of a trace, in order, each with the state it ran in. */
  function Draws(s: GlState, t: seq<Cmd>): seq<DrawCall>
    decreases t
  {
    if t == [] then [] else DrawOf(s, t[0]) + Draws(Step(s, t[0]), t[1..])
  }

  /** The draw reads its vertices for slot k from buffer b. */
  predicate Reads(d: DrawCall, k: nat, b: Obj)
  {
    k in d.state.enabled && k in d.state.sources && d.state.sources[k] == b
  }

  /** Every vertex the draw takes through slot k lies inside the buffer that slot reads. */
  predicate InBounds(d: DrawCall, k: nat)
  {
    k in d.state.enabled && k in d.state.sources && d.state.sources[k] in d.state.sizes &&
    3 * (d.first + d.count) <= d.state.sizes[d.state.sources[k]]
  }

  lemma {:induction false} RunAppend(s: GlState, a: seq<Cmd>, b: seq<Cmd>)
    ensures Run(s, a + b) == Run(Run(s, a), b)
    decreases a
  {
    if a != [] {
      assert (a + b)[0] == a[0] && (a + b)[1..] == a[1..] + b;
      RunAppend(Step(s, a[0]), a[1..], b);
    } else {
      assert a + b == b;
    }
  }

  lemma {:induction false} DrawsAppend(s: GlState, a: seq<Cmd>, b: seq<Cmd>)
    ensures Draws(s, a + b) == Draws(s, a) + Draws(Run(s, a), b)
    decreases a
  {
    if a != [] {
      assert (a + b)[0] == a[0] && (a + b)[1..] == a[1..] + b;
      DrawsAppend(Step(s, a[0]), a[1..], b);
    } else {
      assert a + b == b;
    }
  }

  /** A trace of one call. */
  lemma One(s: GlState, c: Cmd)
    ensures Run(s, [c]) == Step(s, c) && Draws(s, [c]) == DrawOf(s, c)
  {
    assert [c][1..] == [];
    assert Run(s, [c]) == Run(Step(s, c), []);
    assert Draws(s, [c]) == DrawOf(s, c) + Draws(Step(s, c), []);
  }

  /** A trace of two calls. */
  lemma Two(s: GlState, c1: Cmd, c2: Cmd)
    ensures Run(s, [c1, c2]) == Step(Step(s, c1), c2)
    ensures Draws(s, [c1, c2]) == DrawOf(s, c1) + DrawOf(Step(s, c1), c2)
  {
    assert [c1, c2] == [c1] + [c2];
    One(s, c1);
    One(Step(s, c1), c2);
    RunAppend(s, [c1], [c2]);
    DrawsAppend(s, [c1], [c2]);
  }

  /** A trace of three calls. */
  lemma Three(s: GlState, c1: Cmd, c2: Cmd, c3: Cmd)
    ensures Run(s, [c1, c2, c3]) == Step(Step(Step(s, c1), c2), c3)
    ensures Draws(s, [c1, c2, c3]) ==
      DrawOf(s, c1) + DrawOf(Step(s, c1), c2) + DrawOf(Step(Step(s, c1), c2), c3)
  {
    var s1 := Step(s, c1);
    var s2 := Step(s1, c2);
    assert [c1, c2, c3][1..] == [c2, c3];
    assert [c2, c3][1..] == [c3];
    assert [c3][1..] == [];
    assert Run(s2, [c3]) == Step(s2, c3) by {
      assert Run(s2, [c3]) == Run(Step(s2, c3), []);
    }
    assert Run(s, [c1, c2, c3]) == Run(s2, [c3]) by {
      assert Run(s, [c1, c2, c3]) == Run(s1, [c2, c3]);
    }
    assert Draws(s2, [c3]) == DrawOf(s2, c3) by {
      assert Draws(s2, [c3]) == DrawOf(s2, c3) + Draws(Step(s2, c3), []);
    }
    assert Draws(s1, [c2, c3]) == DrawOf(s1, c2) + DrawOf(s2, c3);
    assert Draws(s, [c1, c2, c3]) == DrawOf(s, c1) + (DrawOf(s1, c2) + DrawOf(s2, c3));
  }

  /** Deleting objects named from n on leaves the objects older than n as they were. */
  lemma LiveAfter(live: set<Obj>, n: nat, created: set<Obj>, deleted: set<Obj>)
    requires forall o :: o in live ==> o.name < n
    requires forall o :: o in deleted ==> o.name >= n
    ensures live + created - deleted == live + (created - deleted)
  {
  }

  /** `glEnableVertexAttribArray(k)`, `glBindBuffer(b)`, `glVertexAttribPointer(k, ...)`, in the
      order the cube program and the Python casa program issue them. */
  function Feed(k: nat, b: Obj): seq<Cmd>
  {
    [EnableSlot(k), BindArrayBuffer(b), AttribPointer(k)]
  }

  /** After feeding slot k from b, slot k is enabled and reads b, and b is bound. */
  lemma FeedEffect(s: GlState, k: nat, b: Obj)
    ensures Run(s, Feed(k, b)) ==
      s.(arrayBuffer := Some(b), sources := s.sources[k := b], enabled := s.enabled + {k})
    ensures Draws(s, Feed(k, b)) == []
  {
    Three(s, EnableSlot(k), BindArrayBuffer(b), AttribPointer(k));
  }

  /** `glBindBuffer(b)`, `glVertexAttribPointer(k, ...)`, `glEnableVertexAttribArray(k)`, in the
      order the C++ casa program issues them. */
  function Attach(k: nat, b: Obj): seq<Cmd>
  {
    [BindArrayBuffer(b), AttribPointer(k), EnableSlot(k)]
  }

  /** Attaching has the same effect as feeding: the order of the three calls does not matter. */
  lemma AttachEffect(s: GlState, k: nat, b: Obj)
    ensures Run(s, Attach(k, b)) == Run(s, Feed(k, b))
    ensures Draws(s, Attach(k, b)) == []
  {
    Three(s, BindArrayBuffer(b), AttribPointer(k), EnableSlot(k));
    FeedEffect(s, k, b);
  }

  /** `glDrawArrays(primitive, 0, count)` and then `glDisableVertexAttribArray` of slots 0
      and 1. */
  function DrawAndDisable(primitive: Primitive, count: nat): seq<Cmd>
  {
    [DrawArrays(primitive, 0, count), DisableSlot(0), DisableSlot(1)]
  }

  lemma DrawAndDisableEffect(s: GlState, primitive: Primitive, count: nat)
    ensures Run(s, DrawAndDisable(primitive, count)) == s.(enabled := s.enabled - {0, 1})
    ensures Draws(s, DrawAndDisable(primitive, count)) == [DrawCall(primitive, 0, count, s)]
  {
    Three(s, DrawArrays(primitive, 0, count), DisableSlot(0), DisableSlot(1));
  }

  /** Feeding slots 0 and 1 from two buffers and drawing: the draw reads the two buffers,
      sees the buffer sizes as they were, and leaves both slots disabled. */
  lemma FeedTwoAndDraw(s: GlState, b0: Obj, b1: Obj, primitive: Primitive, count: nat)
    ensures var t := Feed(0, b0) + Feed(1, b1) + DrawAndDisable(primitive, count);
      var ds := Draws(s, t);
      |ds| == 1 && ds[0].primitive == primitive && ds[0].first == 0 && ds[0].count == count &&
      Reads(ds[0], 0, b0) && Reads(ds[0], 1, b1) &&
      ds[0].state.sizes == s.sizes && ds[0].state.program == s.program &&
      ds[0].state.viewport == s.viewport &&
      Run(s, t).sizes == s.sizes && Run(s, t).program == s.program &&
      Run(s, t).viewport == s.viewport && Run(s, t).enabled == s.enabled - {0, 1}
  {
    var s1 := Run(s, Feed(0, b0));
    FeedEffect(s, 0, b0);
    var s2 := Run(s1, Feed(1, b1));
    FeedEffect(s1, 1, b1);
    DrawAndDisableEffect(s2, primitive, count);
    ThreeParts(s, Feed(0, b0), Feed(1, b1), DrawAndDisable(primitive, count));
    assert s2.sources[0] == b0 && s2.sources[1] == b1;
  }

  /** A trace that ends with `before`, extended by `step`, ends with `before + step`. */
  lemma Extend(t: seq<Cmd>, before: seq<Cmd>, step: seq<Cmd>, after: seq<Cmd>)
    requires after == before + step
    ensures (t + before) + step == t + after
  {
  }

  /** A trace in three parts runs as the parts one after the other. */
  lemma ThreeParts(s: GlState, a: seq<Cmd>, b: seq<Cmd>, c: seq<Cmd>)
    ensures Run(s, a + b + c) == Run(Run(Run(s, a), b), c)
    ensures Draws(s, a + b + c) == Draws(s, a) + Draws(Run(s, a), b) + Draws(Run(Run(s, a), b), c)
  {
    RunAppend(s, a, b);
    DrawsAppend(s, a, b);
    RunAppend(s, a + b, c);
    DrawsAppend(s, a + b, c);
  }

  /** `glBindBuffer(b)` then `glBufferData` of n floats. */
  function Upload(b: Obj, n: nat): seq<Cmd>
  {
    [BindArrayBuffer(b), BufferData(n)]
  }

  lemma UploadEffect(s: GlState, b: Obj, n: nat)
    ensures Run(s, Upload(b, n)) == s.(arrayBuffer := Some(b), sizes := s.sizes[b := n])
    ensures Draws(s, Upload(b, n)) == []
  {
    var s1 := Step(s, BindArrayBuffer(b));
    assert Upload(b, n)[1..] == [BufferData(n)];
    assert [BufferData(n)][1..] == [];
    assert Run(s1, [BufferData(n)]) == Run(Step(s1, BufferData(n)), []);
    assert Draws(s1, [BufferData(n)]) == DrawOf(s1, BufferData(n)) + Draws(Step(s1, BufferData(n)), []);
  }
  /** Two uploads in a row: each buffer holds its floats, the second one is left bound. */
  lemma UploadTwoEffect(s: GlState, b1: Obj, n1: nat, b2: Obj, n2: nat)
    ensures Run(s, Upload(b1, n1) + Upload(b2, n2)) ==
      s.(arrayBuffer := Some(b2), sizes := s.sizes[b1 := n1][b2 := n2])
    ensures Draws(s, Upload(b1, n1) + Upload(b2, n2)) == []
  {
    UploadEffect(s, b1, n1);
    UploadEffect(Run(s, Upload(b1, n1)), b2, n2);
    RunAppend(s, Upload(b1, n1), Upload(b2, n2));
    DrawsAppend(s, Upload(b1, n1), Upload(b2, n2));
  }


  /** The driver as the programs see it: the calls made so far, the objects created and not
      yet deleted, and the counter that makes every new name fresh. */
  class Gl {
    var trace: seq<Cmd>
    var live: set<Obj>
    var next: nat

    ghost predicate Valid()
      reads this
    {
      forall o :: o in live ==> o.name < next
    }

    /** The state the calls so far have left. */
    function State(): GlState
      reads this
    {
      Run(Initial, trace)
    }

    constructor ()
      ensures Valid() && trace == [] && live == {} && next == 0
    {
      trace, live, next := [], {}, 0;
    }

    /** `glGen*` / `glCreate*`: a name never handed out before. */
    method Create(kind: Kind) returns (o: Obj)
      requires Valid()
      modifies this
      ensures Valid()
      ensures o == Obj(kind, old(next)) && o !in old(live)
      ensures live == old(live) + {o} && next == old(next) + 1 && trace == old(trace)
    {
      o := Obj(kind, next);
      live := live + {o};
      next := next + 1;
    }

    /** `glDelete*`: deleting a name that is not live is silently ignored. */
    method Delete(o: Obj)
      requires Valid()
      modifies this
      ensures Valid()
      ensures live == old(live) - {o} && next == old(next) && trace == old(trace)
    {
      live := live - {o};
    }

    /** Any other call: it is appended to the trace. */
    method Issue(c: Cmd)
      modifies this
      ensures trace == old(trace) + [c] && live == old(live) && next == old(next)
      ensures Valid() == old(Valid())
    {
      trace := trace + [c];
    }
  }

  /** The calls of `Feed(k, b)`, one at a time. */
  method IssueFeed(gl: Gl, k: nat, b: Obj)
    modifies gl
    ensures gl.trace == old(gl.trace) + Feed(k, b)
    ensures gl.live == old(gl.live) && gl.next == old(gl.next) && gl.Valid() == old(gl.Valid())
  {
    gl.Issue(EnableSlot(k));
    gl.Issue(BindArrayBuffer(b));
    gl.Issue(AttribPointer(k));
  }

  /** The calls of `Attach(k, b)`, one at a time. */
  method IssueAttach(gl: Gl, k: nat, b: Obj)
    modifies gl
    ensures gl.trace == old(gl.trace) + Attach(k, b)
    ensures gl.live == old(gl.live) && gl.next == old(gl.next) && gl.Valid() == old(gl.Valid())
  {
    gl.Issue(BindArrayBuffer(b));
    gl.Issue(AttribPointer(k));
    gl.Issue(EnableSlot(k));
  }

  /** The calls of `DrawAndDisable(primitive, count)`, one at a time. */
  method IssueDrawAndDisable(gl: Gl, primitive: Primitive, count: nat)
    modifies gl
    ensures gl.trace == old(gl.trace) + DrawAndDisable(primitive, count)
    ensures gl.live == old(gl.live) && gl.next == old(gl.next) && gl.Valid() == old(gl.Valid())
  {
    gl.Issue(DrawArrays(primitive, 0, count));
    gl.Issue(DisableSlot(0));
    gl.Issue(DisableSlot(1));
  }

  /** The calls of `Upload(b, n)`, one at a time. */
  method IssueUpload(gl: Gl, b: Obj, n: nat)
    modifies gl
    ensures gl.trace == old(gl.trace) + Upload(b, n)
    ensures gl.live == old(gl.live) && gl.next == old(gl.next) && gl.Valid() == old(gl.Valid())
  {
    gl.Issue(BindArrayBuffer(b));
    gl.Issue(BufferData(n));
  }
}
