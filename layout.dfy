/** Window rectangles for the viewport demos: the cube program's list of four viewports and
    the casa programs' nested row/column loop, both a 2×2 split of the framebuffer into
    regions of (W/2) × (H/2) pixels. Sizes are non-negative, so C++ `/`, Python `//` and
    Dafny `/` agree on them. */
module Layout {

  /** A viewport as `glViewport` takes it: lower-left corner (x, y), width w, height h. */
  datatype Rect = Rect(x: int, y: int, w: int, h: int)

  /** Whether pixel (px, py) lies in r. */
  predicate Inside(r: Rect, px: int, py: int)
  {
    r.x <= px < r.x + r.w && r.y <= py < r.y + r.h
  }

  /** Whether pixel (px, py) lies in [0, w) × [0, h). */
  predicate InBox(px: int, py: int, w: int, h: int)
  {
    0 <= px < w && 0 <= py < h
  }

  /** Whether some rectangle of vs holds pixel (px, py). */
  predicate Covered(vs: seq<Rect>, px: int, py: int)
  {
    exists k :: 0 <= k < |vs| && Inside(vs[k], px, py)
  }

  /** The cube program's viewport list for a W × H framebuffer, in its order:
      bottom left, bottom right, top left, top right. */
  function Quadrants(width: nat, height: nat): (vs: seq<Rect>)
    ensures |vs| == 4
  {
    var w, h := width / 2, height / 2;
    [Rect(0, 0, w, h), Rect(w, 0, w, h), Rect(0, h, w, h), Rect(w, h, w, h)]
  }

  /** The index, in that order, of the quadrant that pixel (px, py) falls in when the
      regions are w × h. */
  function QuadrantOf(px: int, py: int, w: int, h: int): nat
  {
    (if py < h then 0 else 2) + (if px < w then 0 else 1)
  }

  /** A pixel lies in quadrant k exactly when it lies in [0, 2·(W/2)) × [0, 2·(H/2)) and k
      is its quadrant index. */
  lemma QuadrantsTile(width: nat, height: nat, k: nat, px: int, py: int)
    requires k < 4
    ensures Inside(Quadrants(width, height)[k], px, py) <==>
      InBox(px, py, 2 * (width / 2), 2 * (height / 2)) && k == QuadrantOf(px, py, width / 2, height / 2)
  {
  }

  /** No pixel lies in two of the four viewports. */
  lemma QuadrantsDisjoint(width: nat, height: nat, k1: nat, k2: nat, px: int, py: int)
    requires k1 < 4 && k2 < 4 && k1 != k2
    ensures !(Inside(Quadrants(width, height)[k1], px, py) && Inside(Quadrants(width, height)[k2], px, py))
  {
    QuadrantsTile(width, height, k1, px, py);
    QuadrantsTile(width, height, k2, px, py);
  }

  /** The four viewports together cover exactly [0, 2·(W/2)) × [0, 2·(H/2)). */
  lemma QuadrantsUnion(width: nat, height: nat, px: int, py: int)
    ensures Covered(Quadrants(width, height), px, py) <==> InBox(px, py, 2 * (width / 2), 2 * (height / 2))
  {
    var vs := Quadrants(width, height);
    if Covered(vs, px, py) {
      var k :| 0 <= k < |vs| && Inside(vs[k], px, py);
      QuadrantsTile(width, height, k, px, py);
    }
    if InBox(px, py, 2 * (width / 2), 2 * (height / 2)) {
      var k := QuadrantOf(px, py, width / 2, height / 2);
      QuadrantsTile(width, height, k, px, py);
    }
  }

  /** Of the framebuffer's pixels, the viewports leave out exactly the last column when W
      is odd and the last row when H is odd. */
  lemma QuadrantsRemainder(width: nat, height: nat, px: int, py: int)
    requires InBox(px, py, width, height)
    ensures !Covered(Quadrants(width, height), px, py) <==>
      (width % 2 == 1 && px == width - 1) || (height % 2 == 1 && py == height - 1)
  {
    QuadrantsUnion(width, height, px, py);
  }

  /** The viewports cover the whole (non-empty) framebuffer exactly when W and H are even. */
  lemma QuadrantsCoverWindow(width: nat, height: nat)
    requires width > 0 && height > 0
    ensures (forall px, py :: InBox(px, py, width, height) ==> Covered(Quadrants(width, height), px, py))
      <==> width % 2 == 0 && height % 2 == 0
  {
    if width % 2 == 0 && height % 2 == 0 {
      forall px, py | InBox(px, py, width, height)
        ensures Covered(Quadrants(width, height), px, py)
      {
        QuadrantsUnion(width, height, px, py);
      }
    } else {
      var px, py := width - 1, height - 1;
      QuadrantsRemainder(width, height, px, py);
    }
  }

  /** A viewport of height zero gives the cube program's aspect ratio a zero divisor; all four
      have that height exactly when the framebuffer is less than two pixels high. */
  lemma QuadrantsFlat(width: nat, height: nat, k: nat)
    requires k < 4
    ensures Quadrants(width, height)[k].h == 0 <==> height < 2
  {
  }

  /** The viewport the casa programs set at row i, column j of the grid. */
  function GridCell(i: int, j: int, regionWidth: int, regionHeight: int): Rect
  {
    Rect(j * regionWidth, i * regionHeight, regionWidth, regionHeight)
  }

  /** The viewports the casa programs' nested loops set, in the order they set them:
      rows i = 0, 1 outside, columns j = 0, 1 inside. */
  function GridOrder(regionWidth: int, regionHeight: int): seq<Rect>
  {
    [GridCell(0, 0, regionWidth, regionHeight), GridCell(0, 1, regionWidth, regionHeight),
     GridCell(1, 0, regionWidth, regionHeight), GridCell(1, 1, regionWidth, regionHeight)]
  }

  /** Row i, column j is the (2i + j)-th viewport the loops set. */
  lemma GridOrderCell(regionWidth: int, regionHeight: int, i: int, j: int)
    requires 0 <= i < 2 && 0 <= j < 2
    ensures GridOrder(regionWidth, regionHeight)[2 * i + j] == GridCell(i, j, regionWidth, regionHeight)
  {
    if i == 0 {
      assert 2 * i + j == j;
    } else {
      assert 2 * i + j == 2 + j;
    }
  }

  /** With regions of (W/2) × (H/2), the nested loops visit the same four rectangles, in the
      same order, as the cube program's list, so they tile the framebuffer the same way. */
  lemma GridIsQuadrants(width: nat, height: nat)
    ensures GridOrder(width / 2, height / 2) == Quadrants(width, height)
  {
    var w, h := width / 2, height / 2;
    assert GridCell(0, 0, w, h) == Rect(0, 0, w, h);
    assert GridCell(0, 1, w, h) == Rect(w, 0, w, h);
    assert GridCell(1, 0, w, h) == Rect(0, h, w, h);
    assert GridCell(1, 1, w, h) == Rect(w, h, w, h);
  }
}
