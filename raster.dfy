/** The raster drawing of the sunflower programs: a 256 x 256 RGB image (rows indexed by y,
    columns by x), Bresenham's integer line algorithm `desenharLinha` / `desenhar_linha`, and
    the filled disc of the flower's centre. Pixel writes outside the image are skipped, as both
    programs skip them, so every operation is total on its integer inputs. */
module Raster {

  const Width: int := 256    // largura
  const Height: int := 256   // altura

  datatype Color = Rgb(r: int, g: int, b: int)

  const White: Color := Rgb(255, 255, 255)
  const Yellow: Color := Rgb(255, 255, 0)
  const Orange: Color := Rgb(255, 165, 0)

  function Abs(n: int): nat { if n < 0 then -n else n }

  /** An image as the programs hold it: Height rows of Width pixels. */
  predicate IsImage(img: array2<Color>) { img.Length0 == Height && img.Length1 == Width }

  /** `criarImagem` / `np.full(..., 255)`: a white image. */
  method CreateImage() returns (img: array2<Color>)
    ensures fresh(img) && IsImage(img)
    ensures forall i, j :: 0 <= i < Height && 0 <= j < Width ==> img[i, j] == White
  {
    img := new Color[Height, Width]((i, j) => White);
  }

  // ---------------------------------------------------------------------------------------
  // The line algorithm, stated as functions on its inputs.

  /** A line after the two swaps of the algorithm: for a steep line x and y are exchanged,
      then the endpoints are ordered so that the major coordinate increases. */
  datatype Plan = Plan(steep: bool, x0: int, y0: int, x1: int, y1: int)

  /** In a plan the major coordinate increases and changes at least as much as the minor one. */
  predicate Ordered(p: Plan) { p.x0 <= p.x1 && Abs(p.y1 - p.y0) <= p.x1 - p.x0 }

  function MakePlan(x0: int, y0: int, x1: int, y1: int): (p: Plan)
    ensures Ordered(p)
  {
    var steep := Abs(y1 - y0) > Abs(x1 - x0);
    var a0, b0, a1, b1 := if steep then y0 else x0, if steep then x0 else y0,
                          if steep then y1 else x1, if steep then x1 else y1;
    if a0 > a1 then Plan(steep, a1, b1, a0, b0) else Plan(steep, a0, b0, a1, b1)
  }

  function Dx(p: Plan): nat requires Ordered(p) { p.x1 - p.x0 }

  function Dy(p: Plan): nat { Abs(p.y1 - p.y0) }

  function YStep(p: Plan): int { if p.y0 < p.y1 then 1 else -1 }

  /** The error term and the number of minor-axis moves made before iteration k. */
  function Track(p: Plan, k: nat): (int, nat)
    requires Ordered(p)
  {
    if k == 0 then (Dx(p) / 2, 0)
    else
      var prev := Track(p, k - 1);
      if prev.0 - Dy(p) < 0 then (prev.0 - Dy(p) + Dx(p), prev.1 + 1) else (prev.0 - Dy(p), prev.1)
  }

  /** The minor coordinate at iteration k. */
  function Minor(p: Plan, k: nat): int requires Ordered(p)
  {
    if p.y0 < p.y1 then p.y0 + Track(p, k).1 else p.y0 - Track(p, k).1
  }

  /** One iteration of the loop: the error term drops by dy, and when it goes negative the
      minor coordinate moves one step and dx is added back. */
  lemma TrackStep(p: Plan, k: nat, erro: int, y: int)
    requires Ordered(p) && erro == Track(p, k).0 && y == Minor(p, k)
    ensures var e := erro - Dy(p);
      Track(p, k + 1).0 == (if e < 0 then e + Dx(p) else e) &&
      Minor(p, k + 1) == (if e < 0 then y + YStep(p) else y)
  {
  }

  /** The (row, column) cell visited at iteration k: row x of a steep line, row y otherwise. */
  function Cell(p: Plan, k: nat): (int, int) requires Ordered(p)
  {
    if p.steep then (p.x0 + k, Minor(p, k)) else (Minor(p, k), p.x0 + k)
  }

  /** The cells visited by the loop, one per value of the major coordinate, in order. */
  function LineCells(p: Plan): (cells: seq<(int, int)>)
    requires Ordered(p)
    ensures |cells| == Dx(p) + 1
  {
    seq(Dx(p) + 1, k requires 0 <= k <= Dx(p) => Cell(p, k))
  }

  /** The cells of the first n iterations, as a set. */
  function Painted(p: Plan, n: nat): set<(int, int)>
    requires Ordered(p)
  {
    if n == 0 then {} else Painted(p, n - 1) + {Cell(p, n - 1)}
  }

  lemma {:induction false} PaintedCells(p: Plan, n: nat)
    requires Ordered(p) && n <= Dx(p) + 1
    ensures forall c :: c in Painted(p, n) <==> c in LineCells(p)[..n]
  {
    if n > 0 {
      PaintedCells(p, n - 1);
      assert LineCells(p)[..n] == LineCells(p)[..n - 1] + [Cell(p, n - 1)];
    }
  }

  /** Iteration k adds its cell to the painted ones. */
  lemma PaintedStep(p: Plan, k: nat, row: int, col: int)
    requires Ordered(p) && (row, col) == (if p.steep then (p.x0 + k, Minor(p, k)) else (Minor(p, k), p.x0 + k))
    ensures Painted(p, k + 1) == Painted(p, k) + {(row, col)}
  {
  }

  /** The cells `desenharLinha(x0, y0, x1, y1, ...)` visits. */
  function Line(x0: int, y0: int, x1: int, y1: int): seq<(int, int)>
  {
    LineCells(MakePlan(x0, y0, x1, y1))
  }

  // ---------------------------------------------------------------------------------------
  // The two implementations.

  /** The bounds-checked pixel write of both line loops: row `row`, column `col`. */
  method Plot(img: array2<Color>, row: int, col: int, cor: Color)
    requires IsImage(img)
    modifies img
    ensures forall i, j :: 0 <= i < Height && 0 <= j < Width ==>
      img[i, j] == if (i, j) == (row, col) then cor else old(img[i, j])
  {
    if 0 <= row && row < Height && 0 <= col && col < Width {
      img[row, col] := cor;
    }
  }

  /** The pixels of an image, as a value. */
  ghost function Pixels(img: array2<Color>): (px: seq<seq<Color>>)
    requires IsImage(img)
    reads img
    ensures |px| == Height && forall i :: 0 <= i < Height ==> |px[i]| == Width
    ensures forall i, j :: 0 <= i < Height && 0 <= j < Width ==> px[i][j] == img[i, j]
  {
    seq(Height, i requires 0 <= i < Height reads img =>
      seq(Width, j requires 0 <= j < Width reads img => img[i, j]))
  }

  /** The image shows the pixels px with the given cells painted cor. */
  ghost predicate Shows(img: array2<Color>, cells: set<(int, int)>, cor: Color, px: seq<seq<Color>>)
    reads img
  {
    IsImage(img) && |px| == Height && (forall i :: 0 <= i < Height ==> |px[i]| == Width) &&
    forall i, j :: 0 <= i < Height && 0 <= j < Width ==>
      img[i, j] == if (i, j) in cells then cor else px[i][j]
  }

  /** Once the loop has run to the end of the line, the painted cells are the line's. */
  lemma LineShown(img: array2<Color>, p: Plan, k: nat, cor: Color, px: seq<seq<Color>>)
    requires Ordered(p) && k == Dx(p) + 1 && Shows(img, Painted(p, k), cor, px)
    ensures forall i, j :: 0 <= i < Height && 0 <= j < Width ==>
      img[i, j] == if (i, j) in LineCells(p) then cor else px[i][j]
  {
    PaintedCells(p, k);
    assert LineCells(p)[..k] == LineCells(p);
  }

  /** Before the loop nothing is painted: the image shows its own pixels. */
  lemma ShowsNothing(img: array2<Color>, cor: Color, px: seq<seq<Color>>)
    requires IsImage(img) && px == Pixels(img)
    ensures Shows(img, {}, cor, px)
  {
  }

  /** One iteration's write: the cell joins the painted ones. */
  method PlotCell(img: array2<Color>, row: int, col: int, cor: Color,
                  ghost cells: set<(int, int)>, ghost px: seq<seq<Color>>)
    requires Shows(img, cells, cor, px)
    modifies img
    ensures Shows(img, cells + {(row, col)}, cor, px)
  {
    Plot(img, row, col, cor);
  }

  /** The C++ `desenharLinha`: the two swaps, then the loop; paints every in-image cell of
      the line and nothing else. */
  method DrawLine(img: array2<Color>, x0: int, y0: int, x1: int, y1: int, cor: Color)
    requires IsImage(img)
    modifies img
    ensures forall i, j :: 0 <= i < Height && 0 <= j < Width ==>
      img[i, j] == if (i, j) in Line(x0, y0, x1, y1) then cor else old(img[i, j])
  {
    var steep, a0, b0, a1, b1 := Swaps(x0, y0, x1, y1);
    TraceLine(img, steep, a0, b0, a1, b1, cor);
  }

  /** The Python `desenhar_linha`: the same swaps, then the loop with the true quotient. */
  method DrawLinePy(img: array2<Color>, x0: int, y0: int, x1: int, y1: int, cor: Color)
    requires IsImage(img)
    modifies img
    ensures forall i, j :: 0 <= i < Height && 0 <= j < Width ==>
      img[i, j] == if (i, j) in Line(x0, y0, x1, y1) then cor else old(img[i, j])
  {
    var steep, a0, b0, a1, b1 := Swaps(x0, y0, x1, y1);
    TraceLinePy(img, steep, a0, b0, a1, b1, cor);
  }

  /** The two swaps at the start of both versions: exchange x and y when the line is
      steep, then exchange the endpoints when the major coordinate would decrease. */
  method Swaps(x0: int, y0: int, x1: int, y1: int) returns (steep: bool, a0: int, b0: int, a1: int, b1: int)
    ensures Plan(steep, a0, b0, a1, b1) == MakePlan(x0, y0, x1, y1)
  {
    a0, b0, a1, b1 := x0, y0, x1, y1;
    steep := Abs(b1 - b0) > Abs(a1 - a0);
    if steep {
      a0, b0 := b0, a0;
      a1, b1 := b1, a1;
    }
    if a0 > a1 {
      a0, a1 := a1, a0;
      b0, b1 := b1, b0;
    }
    SwapsMakePlan(x0, y0, x1, y1, Plan(steep, a0, b0, a1, b1));
  }

  /** The two swaps compute the plan. */
  lemma SwapsMakePlan(x0: int, y0: int, x1: int, y1: int, p: Plan)
    requires p.steep == (Abs(y1 - y0) > Abs(x1 - x0))
    requires var c0, d0, c1, d1 := if p.steep then y0 else x0, if p.steep then x0 else y0,
                                   if p.steep then y1 else x1, if p.steep then x1 else y1;
      if c0 > c1 then p == Plan(p.steep, c1, d1, c0, d0) else p == Plan(p.steep, c0, d0, c1, d1)
    ensures p == MakePlan(x0, y0, x1, y1)
  {
  }

  /** One iteration of the C++ loop: `erro -= dy`, and when it goes negative `y += ystep`
      and `erro += dx`. */
  method Step(ghost p: Plan, ghost k: nat, dx: int, dy: int, ystep: int, erro: int, y: int)
      returns (erro': int, y': int)
    requires Ordered(p) && dx == Dx(p) && dy == Dy(p) && ystep == YStep(p)
    requires erro == Track(p, k).0 && y == Minor(p, k)
    ensures erro' == Track(p, k + 1).0 && y' == Minor(p, k + 1)
  {
    TrackStep(p, k, erro, y);
    erro', y' := erro - dy, y;
    if erro' < 0 {
      y' := y' + ystep;
      erro' := erro' + dx;
    }
  }

  /** The body of the C++ loop at iteration k: plot the cell, then step the error term. */
  method Iteration(img: array2<Color>, ghost p: Plan, ghost k: nat, steep: bool, x: int, y: int,
                   dx: int, dy: int, ystep: int, erro: int, cor: Color, ghost px: seq<seq<Color>>)
      returns (erro': int, y': int)
    requires Ordered(p) && p.steep == steep && x == p.x0 + k && dx == Dx(p) && dy == Dy(p) && ystep == YStep(p)
    requires erro == Track(p, k).0 && y == Minor(p, k)
    requires Shows(img, Painted(p, k), cor, px)
    modifies img
    ensures erro' == Track(p, k + 1).0 && y' == Minor(p, k + 1)
    ensures Shows(img, Painted(p, k + 1), cor, px)
  {
    var row, col := if steep then x else y, if steep then y else x;
    PaintedStep(p, k, row, col);
    PlotCell(img, row, col, cor, Painted(p, k), px);
    erro', y' := Step(p, k, dx, dy, ystep, erro, y);
  }

  /** The C++ loop `for (x = x0; x <= x1; x++)` of `desenharLinha`, on the swapped line. */
  method TraceLine(img: array2<Color>, steep: bool, x0: int, y0: int, x1: int, y1: int, cor: Color)
    requires IsImage(img) && Ordered(Plan(steep, x0, y0, x1, y1))
    modifies img
    ensures forall i, j :: 0 <= i < Height && 0 <= j < Width ==>
      img[i, j] == if (i, j) in LineCells(Plan(steep, x0, y0, x1, y1)) then cor else old(img[i, j])
  {
    ghost var p := Plan(steep, x0, y0, x1, y1);
    var dx := x1 - x0;
    var dy := Abs(y1 - y0);
    var erro := dx / 2;
    var ystep := if y0 < y1 then 1 else -1;
    var y := y0;
    var x := x0;
    ghost var px := Pixels(img);
    ghost var k: nat := 0;
    ShowsNothing(img, cor, px);
    while x <= x1
      invariant x0 <= x <= x1 + 1 && x == x0 + k
      invariant erro == Track(p, k).0 && y == Minor(p, k)
      invariant Shows(img, Painted(p, k), cor, px)
    {
      erro, y := Iteration(img, p, k, steep, x, y, dx, dy, ystep, erro, cor, px);
      x := x + 1;
      k := k + 1;
    }
    LineShown(img, p, k, cor, px);
  }

  /** Where the Python loop starts: its doubled error term is dx less dx's parity, plus
      that parity (0 or 1). */
  lemma StartPy(p: Plan)
    requires Ordered(p)
    ensures Dx(p) == 2 * Track(p, 0).0 + Dx(p) % 2 && 0 <= Dx(p) % 2 <= 1
    ensures Minor(p, 0) == p.y0
  {
  }

  /** Twice the error term plus its odd half has the sign of the error term. */
  lemma DoubledSign(e: int, h: int)
    requires 0 <= h <= 1
    ensures 2 * e + h < 0 <==> e < 0
  {
  }

  /** One iteration of the Python loop on the doubled error term `erro2 = 2 * erro`, where
      `odd` is the half left over when dx is odd. */
  method StepPy(ghost p: Plan, ghost k: nat, dx: int, dy: int, ystep: int, ghost odd: int, erro2: int, y: int)
      returns (erro2': int, y': int)
    requires Ordered(p) && dx == Dx(p) && dy == Dy(p) && ystep == YStep(p) && 0 <= odd <= 1
    requires erro2 == 2 * Track(p, k).0 + odd && y == Minor(p, k)
    ensures erro2' == 2 * Track(p, k + 1).0 + odd && y' == Minor(p, k + 1)
  {
    TrackStep(p, k, Track(p, k).0, y);
    DoubledSign(Track(p, k).0 - dy, odd);
    erro2', y' := erro2 - 2 * dy, y;
    if erro2' < 0 {
      y' := y' + ystep;
      erro2' := erro2' + 2 * dx;
    }
  }

  /** The body of the Python loop at iteration k, on the doubled error term. */
  method IterationPy(img: array2<Color>, ghost p: Plan, ghost k: nat, steep: bool, x: int, y: int,
                     dx: int, dy: int, ystep: int, ghost odd: int, erro2: int, cor: Color, ghost px: seq<seq<Color>>)
      returns (erro2': int, y': int)
    requires Ordered(p) && p.steep == steep && x == p.x0 + k && dx == Dx(p) && dy == Dy(p) && ystep == YStep(p)
    requires 0 <= odd <= 1 && erro2 == 2 * Track(p, k).0 + odd && y == Minor(p, k)
    requires Shows(img, Painted(p, k), cor, px)
    modifies img
    ensures erro2' == 2 * Track(p, k + 1).0 + odd && y' == Minor(p, k + 1)
    ensures Shows(img, Painted(p, k + 1), cor, px)
  {
    var row, col := if steep then x else y, if steep then y else x;
    PaintedStep(p, k, row, col);
    PlotCell(img, row, col, cor, Painted(p, k), px);
    erro2', y' := StepPy(p, k, dx, dy, ystep, odd, erro2, y);
  }

  /** The Python loop `for x in range(x0, x1 + 1)`, whose error term starts at the true
      quotient `dx / 2`. The model keeps twice the error term, an integer, so the comparison
      with zero is exact; it visits exactly the cells of the C++ loop. */
  method TraceLinePy(img: array2<Color>, steep: bool, x0: int, y0: int, x1: int, y1: int, cor: Color)
    requires IsImage(img) && Ordered(Plan(steep, x0, y0, x1, y1))
    modifies img
    ensures forall i, j :: 0 <= i < Height && 0 <= j < Width ==>
      img[i, j] == if (i, j) in LineCells(Plan(steep, x0, y0, x1, y1)) then cor else old(img[i, j])
  {
    ghost var p := Plan(steep, x0, y0, x1, y1);
    var dx := x1 - x0;
    var dy := Abs(y1 - y0);
    var erro2 := dx;  // twice `dx / 2`
    ghost var odd := dx % 2;
    StartPy(p);
    var ystep := if y0 < y1 then 1 else -1;
    var y := y0;
    var x := x0;
    ghost var px := Pixels(img);
    ghost var k: nat := 0;
    ShowsNothing(img, cor, px);
    while x <= x1
      invariant x0 <= x <= x1 + 1 && x == x0 + k
      invariant 0 <= odd <= 1 && erro2 == 2 * Track(p, k).0 + odd && y == Minor(p, k)
      invariant Shows(img, Painted(p, k), cor, px)
    {
      erro2, y := IterationPy(img, p, k, steep, x, y, dx, dy, ystep, odd, erro2, cor, px);
      x := x + 1;
      k := k + 1;
    }
    LineShown(img, p, k, cor, px);
  }

  // ---------------------------------------------------------------------------------------
  // Properties of the line.

  /** The error term stays in [0, dx) and ties the moves to the exact line:
      e_k = dx/2 - k*dy + m_k*dx, with at most one move per step. */
  lemma {:induction false} TrackInvariant(p: Plan, k: nat)
    requires Ordered(p) && Dx(p) > 0
    ensures 0 <= Track(p, k).0 < Dx(p)
    ensures Track(p, k).0 == Dx(p) / 2 - k * Dy(p) + Track(p, k).1 * Dx(p)
    ensures Track(p, k).1 <= k
  {
    if k > 0 {
      TrackInvariant(p, k - 1);
      assert k * Dy(p) == (k - 1) * Dy(p) + Dy(p);
      var prev := Track(p, k - 1);
      if prev.0 - Dy(p) < 0 {
        assert (prev.1 + 1) * Dx(p) == prev.1 * Dx(p) + Dx(p);
      }
    }
  }

  /** Each step advances the major coordinate by one and the minor one by 0 or one unit
      towards the far endpoint, so consecutive cells touch (8-connectivity). */
  lemma LineConnected(p: Plan, k: nat)
    requires Ordered(p) && k < Dx(p)
    ensures Track(p, k + 1).1 == Track(p, k).1 || Track(p, k + 1).1 == Track(p, k).1 + 1
    ensures Minor(p, k + 1) - Minor(p, k) in {0, YStep(p)}
    ensures Abs(Cell(p, k + 1).0 - Cell(p, k).0) <= 1 && Abs(Cell(p, k + 1).1 - Cell(p, k).1) <= 1
  {
  }

  /** Within half a pixel of the exact line: at iteration k the minor offset m satisfies
      |2 * (m * dx - k * dy)| <= dx. */
  lemma LineCloseToExact(p: Plan, k: nat)
    requires Ordered(p) && k <= Dx(p)
    ensures Abs(2 * (Track(p, k).1 * Dx(p) - k * Dy(p))) <= Dx(p)
  {
    if Dx(p) > 0 {
      TrackInvariant(p, k);
    }
  }

  /** After dx steps the minor coordinate has moved exactly dy times. */
  lemma {:induction false} MovesAtEnd(p: Plan)
    requires Ordered(p)
    ensures Track(p, Dx(p)).1 == Dy(p)
    ensures Minor(p, Dx(p)) == p.y1
  {
    if Dx(p) > 0 {
      TrackInvariant(p, Dx(p));
      var dx: int, dy: int, m: int, e: int := Dx(p), Dy(p), Track(p, Dx(p)).1, Track(p, Dx(p)).0;
      var v := e - dx / 2;
      assert v == m * dx - dx * dy;
      ProductDifference(m, dy, dx);
      OnlyMultipleInRange(m - dy, dx, v);
    }
  }

  lemma ProductDifference(a: int, b: int, c: int)
    ensures (a - b) * c == a * c - c * b
  {
  }

  lemma {:induction false} MulAtLeast(a: int, b: int)
    requires a >= 1 && b > 0
    ensures a * b >= b
    decreases a
  {
    if a > 1 {
      MulAtLeast(a - 1, b);
      assert a * b == (a - 1) * b + b;
    }
  }

  /** The only multiple of d strictly between -d and d is zero. */
  lemma OnlyMultipleInRange(q: int, d: int, v: int)
    requires d > 0 && v == q * d && -d < v < d
    ensures q == 0
  {
    if q > 0 {
      MulAtLeast(q, d);
    } else if q < 0 {
      MulAtLeast(-q, d);
    }
  }

  /** The line starts and ends at the two given endpoints, in (row, column) terms. */
  lemma LineEndpoints(x0: int, y0: int, x1: int, y1: int)
    ensures var cells := Line(x0, y0, x1, y1);
      {cells[0], cells[|cells| - 1]} == {(y0, x0), (y1, x1)}
  {
    var p := MakePlan(x0, y0, x1, y1);
    MovesAtEnd(p);
    assert Track(p, 0).1 == 0;
  }

  /** The two swaps make the drawn line independent of the order of its endpoints. */
  lemma LineSymmetric(x0: int, y0: int, x1: int, y1: int)
    ensures MakePlan(x0, y0, x1, y1) == MakePlan(x1, y1, x0, y0)
    ensures Line(x0, y0, x1, y1) == Line(x1, y1, x0, y0)
  {
  }

  /** Every cell of the line lies in the bounding box of its endpoints. */
  lemma LineInBox(x0: int, y0: int, x1: int, y1: int, k: nat)
    requires k < |Line(x0, y0, x1, y1)|
    ensures var c := Line(x0, y0, x1, y1)[k];
      (y0 <= c.0 <= y1 || y1 <= c.0 <= y0) && (x0 <= c.1 <= x1 || x1 <= c.1 <= x0)
  {
    var p := MakePlan(x0, y0, x1, y1);
    MovesBounded(p, k);
    MovesAtEnd(p);
    var m := Track(p, k).1;
    if p.y0 < p.y1 {
      assert Minor(p, k) == p.y0 + m;
    } else {
      assert Minor(p, k) == p.y0 - m;
    }
  }

  /** The move count never decreases and never passes dy. */
  lemma {:induction false} MovesBounded(p: Plan, k: nat)
    requires Ordered(p) && k <= Dx(p)
    ensures Track(p, k).1 <= Track(p, Dx(p)).1
    decreases Dx(p) - k
  {
    if k < Dx(p) {
      LineConnected(p, k);
      MovesBounded(p, k + 1);
    }
  }

  // ---------------------------------------------------------------------------------------
  // The flower's centre.

  predicate InDisc(cx: int, cy: int, r: int, x: int, y: int)
  {
    (x - cx) * (x - cx) + (y - cy) * (y - cy) <= r * r
  }

  /** The cells the C++ loops paint: the closed square [cx-r, cx+r] x [cy-r, cy+r],
      filtered by the disc test. */
  predicate DiscCell(cx: int, cy: int, r: int, x: int, y: int)
  {
    cx - r <= x <= cx + r && cy - r <= y <= cy + r && InDisc(cx, cy, r, x, y)
  }

  /** The cells the Python loops visit and paint: `range` excludes cx+r and cy+r. */
  predicate DiscCellPy(cx: int, cy: int, r: int, x: int, y: int)
  {
    cx - r <= x < cx + r && cy - r <= y < cy + r && InDisc(cx, cy, r, x, y)
  }

  /** The C++ disc fill: paints the in-image cells of the closed disc, column by column. */
  method FillDisc(img: array2<Color>, cx: int, cy: int, r: int, cor: Color)
    requires IsImage(img)
    modifies img
    ensures forall i, j :: 0 <= i < Height && 0 <= j < Width ==>
      img[i, j] == if DiscCell(cx, cy, r, j, i) then cor else old(img[i, j])
  {
    var x := cx - r;
    while x <= cx + r
      invariant cx - r <= x || r < 0
      invariant r >= 0 ==> x <= cx + r + 1
      invariant forall i, j :: 0 <= i < Height && 0 <= j < Width ==>
        img[i, j] == if DiscCell(cx, cy, r, j, i) && j < x then cor else old(img[i, j])
    {
      var y := cy - r;
      while y <= cy + r
        invariant cy - r <= y <= cy + r + 1
        invariant forall i, j :: 0 <= i < Height && 0 <= j < Width ==>
          img[i, j] == if DiscCell(cx, cy, r, j, i) && (j < x || (j == x && i < y)) then cor else old(img[i, j])
      {
        if (x - cx) * (x - cx) + (y - cy) * (y - cy) <= r * r {
          if 0 <= x && x < Width && 0 <= y && y < Height {
            img[y, x] := cor;
          }
        }
        y := y + 1;
      }
      x := x + 1;
    }
  }

  /** The Python disc fill, with the half-open `range` bounds as written. */
  method FillDiscPy(img: array2<Color>, cx: int, cy: int, r: int, cor: Color)
    requires IsImage(img)
    modifies img
    ensures forall i, j :: 0 <= i < Height && 0 <= j < Width ==>
      img[i, j] == if DiscCellPy(cx, cy, r, j, i) then cor else old(img[i, j])
  {
    var x := cx - r;
    while x < cx + r
      invariant cx - r <= x || r <= 0
      invariant r > 0 ==> x <= cx + r
      invariant forall i, j :: 0 <= i < Height && 0 <= j < Width ==>
        img[i, j] == if DiscCellPy(cx, cy, r, j, i) && j < x then cor else old(img[i, j])
    {
      var y := cy - r;
      while y < cy + r
        invariant cy - r <= y <= cy + r
        invariant forall i, j :: 0 <= i < Height && 0 <= j < Width ==>
          img[i, j] == if DiscCellPy(cx, cy, r, j, i) && (j < x || (j == x && i < y)) then cor else old(img[i, j])
      {
        if (x - cx) * (x - cx) + (y - cy) * (y - cy) <= r * r {
          if 0 <= x && x < Width && 0 <= y && y < Height {
            img[y, x] := cor;
          }
        }
        y := y + 1;
      }
      x := x + 1;
    }
  }

  lemma SquareGrows(a: int, b: int)
    requires 0 <= a < b
    ensures a * a < b * b
  {
    assert a * a <= a * b;
    assert a * b < b * b;
  }

  /** For r >= 0 the square box of the loops cuts nothing off: a cell is painted exactly
      when its squared distance from the centre is at most r * r. */
  lemma DiscIsRound(cx: int, cy: int, r: int, x: int, y: int)
    requires r >= 0
    ensures DiscCell(cx, cy, r, x, y) <==> InDisc(cx, cy, r, x, y)
  {
    if InDisc(cx, cy, r, x, y) {
      assert (x - cx) * (x - cx) <= r * r && (y - cy) * (y - cy) <= r * r;
      assert Abs(x - cx) * Abs(x - cx) == (x - cx) * (x - cx);
      assert Abs(y - cy) * Abs(y - cy) == (y - cy) * (y - cy);
      if Abs(x - cx) > r {
        SquareGrows(r, Abs(x - cx));
      }
      if Abs(y - cy) > r {
        SquareGrows(r, Abs(y - cy));
      }
    }
  }

  /** The C++ disc is symmetric about the centre, in both axes. */
  lemma DiscSymmetric(cx: int, cy: int, r: int, x: int, y: int)
    ensures DiscCell(cx, cy, r, x, y) <==> DiscCell(cx, cy, r, 2 * cx - x, y)
    ensures DiscCell(cx, cy, r, x, y) <==> DiscCell(cx, cy, r, x, 2 * cy - y)
  {
    assert (2 * cx - x - cx) * (2 * cx - x - cx) == (x - cx) * (x - cx);
    assert (2 * cy - y - cy) * (2 * cy - y - cy) == (y - cy) * (y - cy);
  }

  /** The Python disc is the C++ disc without its last column and its last row. */
  lemma PyDiscAsWritten(cx: int, cy: int, r: int, x: int, y: int)
    ensures DiscCellPy(cx, cy, r, x, y) <==> DiscCell(cx, cy, r, x, y) && x != cx + r && y != cy + r
  {
  }

  /** The half-open ranges break the disc's symmetry: for r > 0 the leftmost point
      (cx - r, cy) is painted and its mirror (cx + r, cy) is not. */
  lemma PyDiscMissesEdge(cx: int, cy: int, r: int)
    requires r > 0
    ensures DiscCellPy(cx, cy, r, cx - r, cy) && !DiscCellPy(cx, cy, r, cx + r, cy)
    ensures DiscCell(cx, cy, r, cx - r, cy) && DiscCell(cx, cy, r, cx + r, cy)
  {
  }
}
