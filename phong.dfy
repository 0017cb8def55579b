/** The Phong lighting demo: four green spheres, each drawn with a different set of the three
    fixed-function lights on, meant to show the ambient term, the diffuse term, the specular
    term and all three. The model follows the OpenGL state the program drives: the enabled
    capabilities, the intensities of lights 0 to 2, the scene ambient light
    (`GL_LIGHT_MODEL_AMBIENT`), the modelview matrix stack (as the list of translations applied since
    the last `glLoadIdentity`) and the immediate-mode calls it issues. The sphere's vertex
    coordinates come from `sin`/`cos` in floating point; the model identifies each vertex by
    the latitude ring and the longitude step it is computed from. */
module Phong {
  import opened Results

  // ---------------------------------------------------------------------------------------
  // The state the program touches.

  /** What `glEnable`/`glDisable` switch: lighting, the depth test and the lights. */
  datatype Capability = Lighting | DepthTest | Light(index: nat)

  /** The three terms of the Phong model, one per `glLightfv` colour parameter. */
  datatype Component = Ambient | Diffuse | Specular

  /** A light's ambient, diffuse and specular intensity (the programs always give grey
      levels with alpha 1; the grey level is kept). */
  datatype Intensities = Intensities(ambient: real, diffuse: real, specular: real)

  function Intensity(i: Intensities, c: Component): real
  {
    match c
    case Ambient => i.ambient
    case Diffuse => i.diffuse
    case Specular => i.specular
  }

  /** `glLightfv(light, c, v)` on one light's intensities. */
  function With(i: Intensities, c: Component, v: real): Intensities
  {
    match c
    case Ambient => i.(ambient := v)
    case Diffuse => i.(diffuse := v)
    case Specular => i.(specular := v)
  }

  const Zero: Intensities := Intensities(0.0, 0.0, 0.0)

  /** The fixed-function defaults: light 0 is white for the diffuse and specular terms and
      black for the ambient term; the other lights, absent from the map, are black. */
  function DefaultColours(): map<nat, Intensities>
  {
    map[0 := Intensities(0.0, 1.0, 1.0)]
  }

  /** Light k's intensities; a light never set is black. */
  function LightColours(colours: map<nat, Intensities>, k: nat): Intensities
  {
    if k in colours then colours[k] else Zero
  }

  /** The intensities `configurar_iluminacao` leaves: light 0 only ambient (0.2), light 1
      only diffuse (0.8), light 2 only specular (1.0). */
  function Configured(): map<nat, Intensities>
  {
    map[0 := Intensities(0.2, 0.0, 0.0), 1 := Intensities(0.0, 0.8, 0.0), 2 := Intensities(0.0, 0.0, 1.0)]
  }

  /** The grey level of the scene ambient light `GL_LIGHT_MODEL_AMBIENT` in a fresh context;
      neither program changes it. The fixed-function lighting adds it, times the material's
      ambient colour (green here), to every lit vertex, whichever lights are on. */
  const DefaultSceneAmbient: real := 0.2

  /** A `glTranslatef` applied to the modelview matrix. */
  datatype Translation = Translation(x: real, y: real, z: real)

  /** The state a strip is drawn under: the enabled capabilities, the light intensities, the
      scene ambient grey level and the modelview matrix. */
  datatype State = State(enabled: set<Capability>, colours: map<nat, Intensities>, sceneAmbient: real, at: seq<Translation>)

  /** The sample of the sphere on latitude ring `latitude` (of `slices`) and longitude step
      `longitude` (of `stacks`); its coordinates are left out. */
  datatype SpherePoint = SpherePoint(latitude: int, longitude: int)

  /** The calls whose order the model follows. */
  datatype Call = Clear | Begin(state: State) | Normal(normal: SpherePoint) | Vertex(vertex: SpherePoint) | End

  const Lights: set<Capability> := {Light(0), Light(1), Light(2)}

  // ---------------------------------------------------------------------------------------
  // The lighting modes.

  /** The lights a mode string turns on among lights 0, 1 and 2; None when the mode is none
      of the four the program knows. Both programs compare the whole string. */
  function ModeLights(mode: string): (r: Option<set<Capability>>)
    ensures r.Some? ==> r.value <= Lights
  {
    if mode == "ambiente" then Some({Light(0)})
    else if mode == "difusa" then Some({Light(1)})
    else if mode == "especular" then Some({Light(2)})
    else if mode == "phong" then Some(Lights)
    else None
  }

  /** The capabilities after the if/else chain of `desenhar_esfera_na_posicao`: a known mode
      sets each of the three lights on or off, an unknown one changes nothing. */
  function Select(mode: string, enabled: set<Capability>): set<Capability>
  {
    match ModeLights(mode)
    case None => enabled
    case Some(on) => (enabled - Lights) + on
  }

  /** A known mode decides every one of the three lights, whatever was on before, and
      touches no other capability; an unknown mode leaves everything as it was. */
  lemma SelectDecides(mode: string, enabled: set<Capability>)
    ensures forall c :: c !in Lights ==> (c in Select(mode, enabled) <==> c in enabled)
    ensures ModeLights(mode).Some? ==>
      forall k :: 0 <= k < 3 ==> (Light(k) in Select(mode, enabled) <==> Light(k) in ModeLights(mode).value)
    ensures ModeLights(mode).None? ==> Select(mode, enabled) == enabled
  {
    if ModeLights(mode).Some? {
      forall k | 0 <= k < 3
        ensures Light(k) in Select(mode, enabled) <==> Light(k) in ModeLights(mode).value
      {
        assert Light(k) in Lights;
      }
    }
  }

  /** The four modes the program uses light exactly the lights their names promise. */
  lemma ModesLight(enabled: set<Capability>)
    ensures Select("ambiente", enabled) * Lights == {Light(0)}
    ensures Select("difusa", enabled) * Lights == {Light(1)}
    ensures Select("especular", enabled) * Lights == {Light(2)}
    ensures Select("phong", enabled) * Lights == Lights
  {
  }

  /** Some enabled light gives the term c a non-zero intensity. */
  ghost predicate Lit(s: State, c: Component)
  {
    exists k :: Light(k) in s.enabled && Intensity(LightColours(s.colours, k), c) != 0.0
  }

  /** The term c lights a strip: some enabled light carries it, or, for the ambient term, the
      scene ambient light is not black. */
  ghost predicate Contributes(s: State, c: Component)
  {
    Lit(s, c) || (c == Ambient && s.sceneAmbient != 0.0)
  }

  /** The terms of the Phong model that light a strip drawn under s (the material is green for
      all three, so none is cancelled by it): none when lighting is off. */
  ghost function Shown(s: State): set<Component>
  {
    if Lighting !in s.enabled then {} else set c | c in {Ambient, Diffuse, Specular} && Contributes(s, c)
  }

  /** The terms that show besides those the lights carry: the ambient one unless the scene
      ambient light is black. */
  function SceneTerms(sceneAmbient: real): set<Component>
  {
    if sceneAmbient == 0.0 then {} else {Ambient}
  }

  /** Under the configured intensities, a state whose lights among 0..2 are exactly {k}
      shows the term light k carries, plus the ambient term when the scene ambient light is
      not black. */
  lemma OneLightShows(s: State, k: nat, c: Component)
    requires Lighting in s.enabled && s.colours == Configured()
    requires s.enabled * Lights == {Light(k)} && k < 3
    requires c == (if k == 0 then Ambient else if k == 1 then Diffuse else Specular)
    ensures Shown(s) == {c} + SceneTerms(s.sceneAmbient)
  {
    assert Light(k) in s.enabled && Intensity(LightColours(s.colours, k), c) != 0.0;
    forall d | d != c
      ensures !Lit(s, d)
    {
      forall j | Light(j) in s.enabled
        ensures Intensity(LightColours(s.colours, j), d) == 0.0
      {
        if j < 3 { assert Light(j) in s.enabled * Lights; }
      }
    }
  }

  /** With all three configured lights on, every term shows. */
  lemma AllLightsShow(s: State)
    requires Lighting in s.enabled && s.colours == Configured() && Lights <= s.enabled
    ensures Shown(s) == {Ambient, Diffuse, Specular}
  {
    assert Light(0) in s.enabled && Intensity(LightColours(s.colours, 0), Ambient) != 0.0;
    assert Light(1) in s.enabled && Intensity(LightColours(s.colours, 1), Diffuse) != 0.0;
    assert Light(2) in s.enabled && Intensity(LightColours(s.colours, 2), Specular) != 0.0;
  }

  /** Light 0 keeps its default white diffuse and specular terms unless they are zeroed, which
      is why `configurar_iluminacao` sets them to black: with the defaults, the ambient mode
      shows the diffuse and specular terms, and the ambient term only through the scene
      ambient light, since light 0's own ambient term is black by default. */
  lemma DefaultLightZeroLitTerms(s: State)
    requires Lighting in s.enabled && s.colours == DefaultColours() && s.enabled * Lights == {Light(0)}
    ensures Shown(s) == {Diffuse, Specular} + SceneTerms(s.sceneAmbient)
  {
    assert Light(0) in s.enabled && Intensity(LightColours(s.colours, 0), Diffuse) != 0.0;
    assert Light(0) in s.enabled && Intensity(LightColours(s.colours, 0), Specular) != 0.0;
    forall j | Light(j) in s.enabled
      ensures Intensity(LightColours(s.colours, j), Ambient) == 0.0
    {
      if j < 3 { assert Light(j) in s.enabled * Lights; }
    }
  }

  // ---------------------------------------------------------------------------------------
  // The sphere.

  /** How many times a loop `for (k = 0; k < n; ++k)` (or `range(n)`) runs. */
  function Count(n: int): nat
  {
    if n > 0 then n else 0
  }

  /** One pass of the inner loop of `desenhar_esfera`: a normal and a vertex on ring i, then
      a normal and a vertex on ring i + 1, all at longitude step j; each normal is computed
      from the same three expressions as the vertex after it. */
  function Quad(i: int, j: int): seq<Call>
  {
    [Normal(SpherePoint(i, j)), Vertex(SpherePoint(i, j)), Normal(SpherePoint(i + 1, j)), Vertex(SpherePoint(i + 1, j))]
  }

  /** The first n passes of the inner loop for slice i. */
  function StripBody(i: int, n: nat): (r: seq<Call>)
    ensures |r| == 4 * n
  {
    if n == 0 then [] else StripBody(i, n - 1) + Quad(i, n - 1)
  }

  /** Slice i: `glBegin(GL_QUAD_STRIP)`, the `j <= stacks` loop, `glEnd`. */
  function Strip(i: int, stacks: int, s: State): (r: seq<Call>)
    ensures |r| == StripLength(stacks)
  {
    [Begin(s)] + StripBody(i, Count(stacks + 1)) + [End]
  }

  /** The first k slices of the outer loop: k strips of the same length, none for a
      non-positive slice count. */
  function SphereBody(k: nat, stacks: int, s: State): (r: seq<Call>)
    ensures |r| == k * StripLength(stacks)
  {
    if k == 0 then []
    else
      MulStep(k, StripLength(stacks));
      SphereBody(k - 1, stacks, s) + Strip(k - 1, stacks, s)
  }

  /** `desenhar_esfera(raio, slices, stacks)` under the state s. */
  function SphereCalls(slices: int, stacks: int, s: State): seq<Call>
  {
    SphereBody(Count(slices), stacks, s)
  }

  /** How many calls one slice makes. */
  function StripLength(stacks: int): nat
  {
    4 * Count(stacks + 1) + 2
  }

  /** The number of vertices among the calls. */
  function Vertices(cs: seq<Call>): nat
  {
    if cs == [] then 0 else Vertices(cs[..|cs| - 1]) + (if cs[|cs| - 1].Vertex? then 1 else 0)
  }

  /** Every vertex comes right after the normal computed for the same point. */
  predicate NormalsFirst(cs: seq<Call>)
  {
    forall k :: 0 <= k < |cs| && cs[k].Vertex? ==> 0 < k && cs[k - 1] == Normal(cs[k].vertex)
  }

  lemma {:induction false} VerticesAppend(a: seq<Call>, b: seq<Call>)
    ensures Vertices(a + b) == Vertices(a) + Vertices(b)
    decreases |b|
  {
    if b != [] {
      var init := b[..|b| - 1];
      assert (a + b)[..|a + b| - 1] == a + init;
      assert (a + b)[|a + b| - 1] == b[|b| - 1];
      VerticesAppend(a, init);
      assert b[..|b| - 1] == init;
    } else {
      assert a + b == a;
    }
  }

  lemma NormalsFirstAppend(a: seq<Call>, b: seq<Call>)
    requires NormalsFirst(a) && NormalsFirst(b)
    ensures NormalsFirst(a + b)
  {
    var ab := a + b;
    forall k | 0 <= k < |ab| && ab[k].Vertex?
      ensures 0 < k && ab[k - 1] == Normal(ab[k].vertex)
    {
      if k < |a| {
        assert ab[k] == a[k] && ab[k - 1] == a[k - 1];
      } else {
        assert ab[k] == b[k - |a|];
        assert 0 < k - |a|;
        assert ab[k - 1] == b[k - |a| - 1];
      }
    }
  }

  lemma QuadShape(i: int, j: int)
    ensures |Quad(i, j)| == 4 && Vertices(Quad(i, j)) == 2 && NormalsFirst(Quad(i, j))
  {
    var q := Quad(i, j);
    assert q[..1][..0] == [];
    assert Vertices(q[..1]) == 0;
    assert q[..2][..1] == q[..1];
    assert Vertices(q[..2]) == 1;
    assert q[..3][..2] == q[..2];
    assert Vertices(q[..3]) == 1;
  }

  /** A slice's body: four calls and two vertices per pass, each vertex after its normal. */
  lemma {:induction false} StripBodyShape(i: int, n: nat)
    ensures Vertices(StripBody(i, n)) == 2 * n
    ensures NormalsFirst(StripBody(i, n))
  {
    if n > 0 {
      StripBodyShape(i, n - 1);
      QuadShape(i, n - 1);
      VerticesAppend(StripBody(i, n - 1), Quad(i, n - 1));
      NormalsFirstAppend(StripBody(i, n - 1), Quad(i, n - 1));
    }
  }

  /** Each slice is one quad strip of 2(stacks + 1) vertices, each after its normal. */
  lemma StripShape(i: int, stacks: int, s: State)
    ensures Vertices(Strip(i, stacks, s)) == 2 * Count(stacks + 1)
    ensures NormalsFirst(Strip(i, stacks, s))
  {
    var body := StripBody(i, Count(stacks + 1));
    StripBodyShape(i, Count(stacks + 1));
    assert Vertices([Begin(s)]) == 0 && NormalsFirst([Begin(s)]);
    assert Vertices([End]) == 0 && NormalsFirst([End]);
    VerticesAppend([Begin(s)], body);
    NormalsFirstAppend([Begin(s)], body);
    VerticesAppend([Begin(s)] + body, [End]);
    NormalsFirstAppend([Begin(s)] + body, [End]);
  }

  /** The sphere's vertices: 2 · (stacks + 1) on each of the `slices` strips. */
  lemma {:induction false} SphereVertices(k: nat, stacks: int, s: State)
    ensures Vertices(SphereBody(k, stacks, s)) == k * (2 * Count(stacks + 1))
  {
    if k > 0 {
      var v := 2 * Count(stacks + 1);
      SphereVertices(k - 1, stacks, s);
      StripShape(k - 1, stacks, s);
      VerticesAppend(SphereBody(k - 1, stacks, s), Strip(k - 1, stacks, s));
      MulStep(k, v);
    }
  }

  /** No vertex of the sphere goes out without its normal right before it. */
  lemma {:induction false} SphereNormals(k: nat, stacks: int, s: State)
    ensures NormalsFirst(SphereBody(k, stacks, s))
  {
    if k > 0 {
      SphereNormals(k - 1, stacks, s);
      StripShape(k - 1, stacks, s);
      NormalsFirstAppend(SphereBody(k - 1, stacks, s), Strip(k - 1, stacks, s));
    }
  }

  lemma MulStep(k: nat, l: nat)
    requires k > 0
    ensures k * l == (k - 1) * l + l
  {
  }

  lemma SliceLeft(a: seq<Call>, b: seq<Call>, lo: int, hi: int)
    requires 0 <= lo <= hi <= |a|
    ensures (a + b)[lo..hi] == a[lo..hi]
  {
  }

  lemma SliceRight(a: seq<Call>, b: seq<Call>)
    ensures (a + b)[|a|..|a| + |b|] == b
  {
  }

  /** Pass j of slice i sits at calls 4j to 4j + 4 of the slice's body. */
  lemma {:induction false} QuadAt(i: int, n: nat, j: nat)
    requires j < n
    ensures 4 * j + 4 <= |StripBody(i, n)| && StripBody(i, n)[4 * j .. 4 * j + 4] == Quad(i, j)
  {
    var before, quad := StripBody(i, n - 1), Quad(i, n - 1);
    if j == n - 1 {
      SliceRight(before, quad);
    } else {
      QuadAt(i, n - 1, j);
      SliceLeft(before, quad, 4 * j, 4 * j + 4);
    }
  }

  /** Slice i sits at calls i · L to (i + 1) · L of the sphere, L being the length of a
      slice. */
  lemma {:induction false} StripAt(k: nat, stacks: int, s: State, i: nat)
    requires i < k
    ensures (i + 1) * StripLength(stacks) <= |SphereBody(k, stacks, s)|
    ensures SphereBody(k, stacks, s)[i * StripLength(stacks) .. (i + 1) * StripLength(stacks)] == Strip(i, stacks, s)
  {
    var l := StripLength(stacks);
    var before, strip := SphereBody(k - 1, stacks, s), Strip(k - 1, stacks, s);
    var lo, hi := i * l, (i + 1) * l;
    assert SphereBody(k, stacks, s) == before + strip;
    MulStep(i + 1, l);
    assert hi == lo + l;
    if i == k - 1 {
      assert |before| == lo;
      SliceRight(before, strip);
      assert SphereBody(k, stacks, s)[lo..hi] == strip;
    } else {
      StripAt(k - 1, stacks, s, i);
      MulLess(i + 1, k - 1, l);
      MulLess(0, i, l);
      assert hi <= |before|;
      SliceLeft(before, strip, lo, hi);
      assert SphereBody(k, stacks, s)[lo..hi] == before[lo..hi];
    }
  }

  lemma MulLess(a: nat, b: nat, l: nat)
    requires a <= b
    ensures a * l <= b * l
  {
  }

  // ---------------------------------------------------------------------------------------
  // The frame.

  /** The sphere size both programs pass to `desenhar_esfera`. */
  const Slices: int := 250
  const Stacks: int := 250

  /** The modes `renderizar` draws with, in order, and where each sphere goes. */
  const Modes: seq<string> := ["ambiente", "difusa", "especular", "phong"]
  const Positions: seq<(real, real)> := [(-1.5, 1.5), (1.5, 1.5), (-1.5, -1.5), (1.5, -1.5)]

  /** What each sphere of a frame is meant to show, as its mode's name says. */
  const Expected: seq<set<Component>> := [{Ambient}, {Diffuse}, {Specular}, {Ambient, Diffuse, Specular}]

  /** The capabilities before sphere q of a frame that started with e. */
  function EnabledBefore(q: nat, e: set<Capability>): set<Capability>
    requires q <= 4
  {
    if q == 0 then e else Select(Modes[q - 1], EnabledBefore(q - 1, e))
  }

  /** The state sphere q is drawn under: its mode's lights, one translation from the
      identity. */
  function SphereState(q: nat, e: set<Capability>, colours: map<nat, Intensities>, ambient: real): State
    requires q < 4
  {
    State(EnabledBefore(q + 1, e), colours, ambient, [Translation(Positions[q].0, Positions[q].1, -5.0)])
  }

  /** `renderizar`, for a frame that starts with the capabilities e. */
  function FrameCalls(e: set<Capability>, colours: map<nat, Intensities>, ambient: real): seq<Call>
  {
    [Clear] + SphereCalls(Slices, Stacks, SphereState(0, e, colours, ambient)) +
    SphereCalls(Slices, Stacks, SphereState(1, e, colours, ambient)) +
    SphereCalls(Slices, Stacks, SphereState(2, e, colours, ambient)) +
    SphereCalls(Slices, Stacks, SphereState(3, e, colours, ambient))
  }

  /** n frames with the same starting capabilities. */
  function Frames(n: nat, e: set<Capability>, colours: map<nat, Intensities>, ambient: real): seq<Call>
  {
    if n == 0 then [] else Frames(n - 1, e, colours, ambient) + FrameCalls(e, colours, ambient)
  }

  /** A frame ends with all three lights on and nothing else changed. */
  lemma FrameEnables(e: set<Capability>)
    ensures EnabledBefore(4, e) == e + Lights
  {
    var e1, e2, e3 := EnabledBefore(1, e), EnabledBefore(2, e), EnabledBefore(3, e);
    EnabledSteps(e);
    SelectKeepsOthers("ambiente", e);
    SelectKeepsOthers("difusa", e1);
    SelectKeepsOthers("especular", e2);
    assert EnabledBefore(4, e) == (e3 - Lights) + Lights;
  }

  /** The four steps of a frame, one per mode in order. */
  lemma EnabledSteps(e: set<Capability>)
    ensures EnabledBefore(1, e) == Select("ambiente", e)
    ensures EnabledBefore(2, e) == Select("difusa", EnabledBefore(1, e))
    ensures EnabledBefore(3, e) == Select("especular", EnabledBefore(2, e))
    ensures EnabledBefore(4, e) == Select("phong", EnabledBefore(3, e))
  {
    assert Modes[0] == "ambiente" && Modes[1] == "difusa" && Modes[2] == "especular" && Modes[3] == "phong";
  }

  /** Sphere q is drawn with the mode and at the position the frame gives it, from the
      identity. */
  lemma SphereAtIs(q: nat, e: set<Capability>, colours: map<nat, Intensities>, ambient: real, x: real, y: real, mode: string)
    requires q < 4 && mode == Modes[q] && (x, y) == Positions[q]
    ensures SphereState(q, e, colours, ambient) == State(Select(mode, EnabledBefore(q, e)), colours, ambient, [] + [Translation(x, y, -5.0)])
  {
    assert [] + [Translation(x, y, -5.0)] == [Translation(x, y, -5.0)];
  }

  /** A known mode leaves every capability but the three lights alone. */
  lemma SelectKeepsOthers(mode: string, enabled: set<Capability>)
    requires ModeLights(mode).Some?
    ensures Select(mode, enabled) - Lights == enabled - Lights
  {
  }

  /** With lighting on and the configured intensities, the spheres of a frame show the
      ambient term, the diffuse term, the specular term and all three, in that order,
      whatever lights were on when the frame began; each of the first three also shows the
      ambient term unless the scene ambient light is black. */
  lemma FrameLighting(e: set<Capability>, q: nat, ambient: real)
    requires Lighting in e && q < 4
    ensures Shown(SphereState(q, e, Configured(), ambient)) == Expected[q] + SceneTerms(ambient)
  {
    var before := EnabledBefore(q, e);
    var s := SphereState(q, e, Configured(), ambient);
    SelectDecides(Modes[q], before);
    ModesLight(before);
    LightingKept(e, q);
    if q == 3 {
      AllLightsShow(s);
    } else {
      OneLightShows(s, q, if q == 0 then Ambient else if q == 1 then Diffuse else Specular);
    }
  }

  /** The modes never switch lighting off. */
  lemma {:induction false} LightingKept(e: set<Capability>, q: nat)
    requires Lighting in e && q <= 4
    ensures Lighting in EnabledBefore(q, e)
  {
    if q > 0 {
      LightingKept(e, q - 1);
      SelectDecides(Modes[q - 1], EnabledBefore(q - 1, e));
      assert Lighting !in Lights;
    }
  }

  // ---------------------------------------------------------------------------------------
  // The program.

  /** The OpenGL state the program drives, and the calls it has issued. */
  class FixedPipeline {
    var enabled: set<Capability>
    var colours: map<nat, Intensities>
    var sceneAmbient: real             // the grey level of GL_LIGHT_MODEL_AMBIENT
    var stack: seq<seq<Translation>>   // the modelview stack, top last
    var stackError: bool               // a pop found a single matrix on the stack
    var calls: seq<Call>

    /** The stack always holds a matrix. */
    predicate Valid()
      reads this
    {
      |stack| >= 1
    }

    function Top(): seq<Translation>
      reads this
      requires Valid()
    {
      stack[|stack| - 1]
    }

    function Current(): State
      reads this
      requires Valid()
    {
      State(enabled, colours, sceneAmbient, Top())
    }

    /** A fresh context: nothing enabled, default intensities, the identity on the stack. */
    constructor ()
      ensures Valid()
      ensures enabled == {} && colours == DefaultColours() && sceneAmbient == DefaultSceneAmbient
      ensures stack == [[]] && !stackError && calls == []
    {
      enabled := {};
      colours := DefaultColours();
      sceneAmbient := DefaultSceneAmbient;
      stack := [[]];
      stackError := false;
      calls := [];
    }

    method Enable(c: Capability)
      modifies this`enabled
      ensures enabled == old(enabled) + {c}
    {
      enabled := enabled + {c};
    }

    method Disable(c: Capability)
      modifies this`enabled
      ensures enabled == old(enabled) - {c}
    {
      enabled := enabled - {c};
    }

    /** `glLightfv(GL_LIGHTk, c, v)`. */
    method SetLight(k: nat, c: Component, v: real)
      modifies this`colours
      ensures colours == old(colours)[k := With(LightColours(old(colours), k), c, v)]
    {
      colours := colours[k := With(LightColours(colours, k), c, v)];
    }

    /** `glLightModelfv(GL_LIGHT_MODEL_AMBIENT, v)`, which neither program calls. */
    method SetSceneAmbient(v: real)
      modifies this`sceneAmbient
      ensures sceneAmbient == v
    {
      sceneAmbient := v;
    }

    method Emit(c: Call)
      modifies this`calls
      ensures calls == old(calls) + [c]
    {
      calls := calls + [c];
    }

    method PushMatrix()
      requires Valid()
      modifies this`stack
      ensures stack == old(stack) + [old(Top())]
    {
      stack := stack + [Top()];
    }

    /** `glPopMatrix`: on a stack holding one matrix, OpenGL flags a stack underflow and
        changes nothing. */
    method PopMatrix()
      requires Valid()
      modifies this`stack, this`stackError
      ensures |old(stack)| > 1 ==> stack == old(stack)[..|old(stack)| - 1] && stackError == old(stackError)
      ensures |old(stack)| == 1 ==> stack == old(stack) && stackError
    {
      if |stack| > 1 {
        stack := stack[..|stack| - 1];
      } else {
        stackError := true;
      }
    }

    method Translate(x: real, y: real, z: real)
      requires Valid()
      modifies this`stack
      ensures stack == old(stack)[..|old(stack)| - 1] + [old(Top()) + [Translation(x, y, z)]]
    {
      stack := stack[..|stack| - 1] + [Top() + [Translation(x, y, z)]];
    }

    method LoadIdentity()
      requires Valid()
      modifies this`stack
      ensures stack == old(stack)[..|old(stack)| - 1] + [[]]
    {
      stack := stack[..|stack| - 1] + [[]];
    }

    /** `configurar_iluminacao`: lighting and lights 0..2 on, then each light's three
        intensities, leaving each light with one non-black term. */
    method ConfigureLighting()
      requires Valid()
      modifies this`enabled, this`colours
      ensures Valid()
      ensures enabled == old(enabled) + {Lighting} + Lights
      ensures colours == old(colours) + Configured()
    {
      Enable(Lighting);
      Enable(Light(0));
      Enable(Light(1));
      Enable(Light(2));
      SetLightTerms(0, Ambient, 0.2, Diffuse, 0.0, Specular, 0.0);
      SetLightTerms(1, Diffuse, 0.8, Ambient, 0.0, Specular, 0.0);
      SetLightTerms(2, Specular, 1.0, Ambient, 0.0, Diffuse, 0.0);
    }

    /** Three `glLightfv` calls on light k, one per term: the light ends with exactly the
        three given intensities, in whatever order they were set. */
    method SetLightTerms(k: nat, c1: Component, v1: real, c2: Component, v2: real, c3: Component, v3: real)
      requires c1 != c2 && c2 != c3 && c1 != c3
      modifies this`colours
      ensures colours == old(colours)[k := With(With(With(Zero, c1, v1), c2, v2), c3, v3)]
    {
      SetLight(k, c1, v1);
      SetLight(k, c2, v2);
      SetLight(k, c3, v3);
    }

    /** The if/else chain on the mode string. */
    method SelectMode(mode: string)
      modifies this`enabled
      ensures enabled == Select(mode, old(enabled))
    {
      if mode == "ambiente" {
        Enable(Light(0));
        Disable(Light(1));
        Disable(Light(2));
      } else if mode == "difusa" {
        Disable(Light(0));
        Enable(Light(1));
        Disable(Light(2));
      } else if mode == "especular" {
        Disable(Light(0));
        Disable(Light(1));
        Enable(Light(2));
      } else if mode == "phong" {
        Enable(Light(0));
        Enable(Light(1));
        Enable(Light(2));
      }
    }

    /** One pass of the inner loop of `desenhar_esfera`. */
    method EmitQuad(i: int, j: int)
      modifies this`calls
      ensures calls == old(calls) + Quad(i, j)
    {
      Emit(Normal(SpherePoint(i, j)));
      Emit(Vertex(SpherePoint(i, j)));
      Emit(Normal(SpherePoint(i + 1, j)));
      Emit(Vertex(SpherePoint(i + 1, j)));
    }

    /** One pass of the outer loop of `desenhar_esfera`: a quad strip between rings i and
        i + 1 (the ring coordinates are floating point and left out). */
    method DrawStrip(i: int, stacks: int)
      requires Valid()
      modifies this`calls
      ensures calls == old(calls) + Strip(i, stacks, Current())
    {
      var s := Current();
      Emit(Begin(s));
      ghost var start := calls;
      var j := 0;
      while j <= stacks
        invariant 0 <= j <= Count(stacks + 1)
        invariant calls == start + StripBody(i, j)
        decreases stacks - j
      {
        EmitQuad(i, j);
        j := j + 1;
      }
      Emit(End);
    }

    /** `desenhar_esfera(raio, slices, stacks)`. */
    method DrawSphere(radius: real, slices: int, stacks: int)
      requires Valid()
      modifies this`calls
      ensures calls == old(calls) + SphereCalls(slices, stacks, Current())
    {
      ghost var s := Current();
      var i := 0;
      while i < slices
        invariant 0 <= i <= Count(slices)
        invariant calls == old(calls) + SphereBody(i, stacks, s)
      {
        DrawStrip(i, stacks);
        i := i + 1;
      }
    }

    /** `desenhar_esfera_na_posicao(x, y, modo)`: the push and the pop enclose the
        translation, so the stack is as it was, and the sphere is drawn one translation
        further than the matrix on top, with the lights the mode selects. */
    method DrawSphereAt(x: real, y: real, mode: string)
      requires Valid()
      modifies this`stack, this`stackError, this`enabled, this`calls
      ensures Valid()
      ensures stack == old(stack) && stackError == old(stackError) && enabled == Select(mode, old(enabled))
      ensures calls == old(calls) +
        SphereCalls(Slices, Stacks, State(Select(mode, old(enabled)), colours, sceneAmbient, old(Top()) + [Translation(x, y, -5.0)]))
    {
      PushMatrix();
      Translate(x, y, -5.0);
      SelectMode(mode);
      DrawSphere(0.5, Slices, Stacks);
      PopMatrix();
    }

    /** `renderizar`: the clear, the identity on the modelview matrix, and the four
        spheres; it ends with all three lights on. */
    method Render()
      requires Valid()
      modifies this`stack, this`stackError, this`enabled, this`calls
      ensures Valid() && stackError == old(stackError)
      ensures stack == old(stack)[..|old(stack)| - 1] + [[]]
      ensures enabled == old(enabled) + Lights
      ensures calls == old(calls) + FrameCalls(old(enabled), colours, sceneAmbient)
    {
      ghost var e := enabled;
      Emit(Clear);
      LoadIdentity();
      ghost var t, st := calls, stack;
      assert Top() == [];
      EnabledSteps(e);
      DrawSphereAt(-1.5, 1.5, "ambiente");
      SphereAtIs(0, e, colours, sceneAmbient, -1.5, 1.5, "ambiente");
      ghost var t0 := calls;
      assert t0 == t + SphereCalls(Slices, Stacks, SphereState(0, e, colours, sceneAmbient));
      DrawSphereAt(1.5, 1.5, "difusa");
      SphereAtIs(1, e, colours, sceneAmbient, 1.5, 1.5, "difusa");
      ghost var t1 := calls;
      assert t1 == t0 + SphereCalls(Slices, Stacks, SphereState(1, e, colours, sceneAmbient));
      DrawSphereAt(-1.5, -1.5, "especular");
      SphereAtIs(2, e, colours, sceneAmbient, -1.5, -1.5, "especular");
      ghost var t2 := calls;
      assert t2 == t1 + SphereCalls(Slices, Stacks, SphereState(2, e, colours, sceneAmbient));
      DrawSphereAt(1.5, -1.5, "phong");
      SphereAtIs(3, e, colours, sceneAmbient, 1.5, -1.5, "phong");
      assert calls == t2 + SphereCalls(Slices, Stacks, SphereState(3, e, colours, sceneAmbient));
      assert enabled == EnabledBefore(4, e) && stack == st;
      FrameEnables(e);
    }

    /** The render loop of `main`, for n frames. */
    method RenderFrames(n: nat)
      requires Valid()
      modifies this`stack, this`stackError, this`enabled, this`calls
      ensures Valid() && stackError == old(stackError)
      ensures stack == if n == 0 then old(stack) else old(stack)[..|old(stack)| - 1] + [[]]
      ensures enabled == old(enabled) + (if n == 0 then {} else Lights)
      ensures calls == old(calls) + Frames(n, old(enabled), colours, sceneAmbient)
    {
      var k := 0;
      while k < n
        invariant 0 <= k <= n
        invariant Valid() && stackError == old(stackError)
        invariant enabled == old(enabled) + (if k == 0 then {} else Lights)
        invariant stack == if k == 0 then old(stack) else old(stack)[..|old(stack)| - 1] + [[]]
        invariant calls == old(calls) + Frames(k, old(enabled), colours, sceneAmbient)
      {
        ghost var e := enabled;
        Render();
        FramesFrom(k, old(enabled), e, colours, sceneAmbient);
        k := k + 1;
      }
    }

    /** `main` once the window is open, for n frames: the depth test, the lights, then the
        render loop. Every frame issues the same calls; the scene ambient light keeps its
        default grey. */
    method Session(n: nat)
      requires Valid()
      modifies this
      ensures Valid() && stackError == old(stackError) && colours == old(colours) + Configured()
      ensures sceneAmbient == old(sceneAmbient)
      ensures stack == if n == 0 then old(stack) else old(stack)[..|old(stack)| - 1] + [[]]
      ensures enabled == old(enabled) + {DepthTest, Lighting} + Lights
      ensures calls == old(calls) + Frames(n, old(enabled) + {DepthTest, Lighting} + Lights, old(colours) + Configured(), old(sceneAmbient))
    {
      Enable(DepthTest);
      ConfigureLighting();
      RenderFrames(n);
    }

    /** The session with the scene ambient light set to black after the lights are
        configured, so that only the lights' own terms show. */
    method SessionBlackScene(n: nat)
      requires Valid()
      modifies this
      ensures Valid() && stackError == old(stackError) && colours == old(colours) + Configured()
      ensures sceneAmbient == 0.0
      ensures stack == if n == 0 then old(stack) else old(stack)[..|old(stack)| - 1] + [[]]
      ensures enabled == old(enabled) + {DepthTest, Lighting} + Lights
      ensures calls == old(calls) + Frames(n, old(enabled) + {DepthTest, Lighting} + Lights, old(colours) + Configured(), 0.0)
    {
      Enable(DepthTest);
      ConfigureLighting();
      SetSceneAmbient(0.0);
      RenderFrames(n);
    }
  }

  /** Frames issued from a state whose lights are already on are the frames of the session's
      starting capabilities: a frame only ever adds the three lights. */
  lemma FramesFrom(k: nat, e0: set<Capability>, e: set<Capability>, colours: map<nat, Intensities>, ambient: real)
    requires e == e0 + (if k == 0 then {} else Lights)
    ensures FrameCalls(e, colours, ambient) == FrameCalls(e0, colours, ambient)
  {
    if k > 0 {
      EnabledSteps(e);
      EnabledSteps(e0);
      assert e - Lights == e0 - Lights;
      assert EnabledBefore(1, e) == EnabledBefore(1, e0);
      assert EnabledBefore(2, e) == EnabledBefore(2, e0);
      assert EnabledBefore(3, e) == EnabledBefore(3, e0);
      assert EnabledBefore(4, e) == EnabledBefore(4, e0);
    } else {
      assert e == e0;
    }
  }

  /** A fresh context's lights once configured are exactly the configured ones. */
  lemma FreshConfigured()
    ensures DefaultColours() + Configured() == Configured()
  {
  }

  /** The capabilities every frame of a session begun on a fresh context starts with. */
  const SessionEnabled: set<Capability> := {} + {DepthTest, Lighting} + Lights

  /** In every frame of a session begun on a fresh context, each sphere shows what its mode
      names and, because the scene ambient light keeps its default grey, the ambient term
      as well. */
  lemma SessionLighting(q: nat)
    requires q < 4
    ensures Shown(SphereState(q, SessionEnabled, DefaultColours() + Configured(), DefaultSceneAmbient)) == Expected[q] + {Ambient}
  {
    FreshConfigured();
    FrameLighting(SessionEnabled, q, DefaultSceneAmbient);
  }

  /** As the programs are written, the `difusa` and `especular` spheres do not show their term
      alone: the scene ambient light adds the ambient term to both. */
  lemma SessionSpheresShowAmbient()
    ensures Shown(SphereState(1, SessionEnabled, DefaultColours() + Configured(), DefaultSceneAmbient)) == {Ambient, Diffuse}
    ensures Shown(SphereState(2, SessionEnabled, DefaultColours() + Configured(), DefaultSceneAmbient)) == {Ambient, Specular}
    ensures Expected[1] == {Diffuse} && Expected[2] == {Specular}
  {
    SessionLighting(1);
    SessionLighting(2);
  }

  /** With the scene ambient light black, every frame of a session begun on a fresh context
      shows exactly the ambient, diffuse, specular and full Phong terms, in that order. */
  lemma SessionBlackSceneLighting(q: nat)
    requires q < 4
    ensures Shown(SphereState(q, SessionEnabled, DefaultColours() + Configured(), 0.0)) == Expected[q]
  {
    FreshConfigured();
    FrameLighting(SessionEnabled, q, 0.0);
  }
}
