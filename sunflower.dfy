/** The two sunflower programs put together: a white image, sixteen yellow petal lines
    from the centre, an orange disc of radius 50 over them, and the P3 text of the result.
    The petal endpoints come from cosines and sines in floating point; they are a parameter
    here, one endpoint per petal. */
module Sunflower {
  import opened Raster
  import opened Ppm

  const CentreX: int := Width / 2    // centro_x
  const CentreY: int := Height / 2   // centro_y
  const CentreRadius: int := 50      // raio_centro

  /** Whether cell (i, j) lies on one of the first n petal lines. */
  predicate OnPetal(ends: seq<(int, int)>, n: nat, i: int, j: int)
    requires n <= |ends|
  {
    n > 0 && (OnPetal(ends, n - 1, i, j) || (i, j) in Line(CentreX, CentreY, ends[n - 1].0, ends[n - 1].1))
  }

  /** The final colour of cell (i, j) in the C++ program. */
  function Pixel(ends: seq<(int, int)>, i: int, j: int): Color
  {
    if DiscCell(CentreX, CentreY, CentreRadius, j, i) then Orange
    else if OnPetal(ends, |ends|, i, j) then Yellow
    else White
  }

  /** The final colour of cell (i, j) in the Python program. */
  function PixelPy(ends: seq<(int, int)>, i: int, j: int): Color
  {
    if DiscCellPy(CentreX, CentreY, CentreRadius, j, i) then Orange
    else if OnPetal(ends, |ends|, i, j) then Yellow
    else White
  }

  /** The C++ `main`: petals, centre, then the file text. */
  method Draw(ends: seq<(int, int)>) returns (img: array2<Color>, text: string)
    ensures fresh(img) && IsImage(img)
    ensures forall i, j :: 0 <= i < Height && 0 <= j < Width ==> img[i, j] == Pixel(ends, i, j)
    ensures text == PpmText(Contents(img))
  {
    img := CreateImage();
    DrawPetals(img, ends, false);
    FillDisc(img, CentreX, CentreY, CentreRadius, Orange);
    text := WritePpm(img);
  }

  /** The Python script: the same steps with its own line and disc loops. */
  method DrawPy(ends: seq<(int, int)>) returns (img: array2<Color>, text: string)
    ensures fresh(img) && IsImage(img)
    ensures forall i, j :: 0 <= i < Height && 0 <= j < Width ==> img[i, j] == PixelPy(ends, i, j)
    ensures text == PpmText(Contents(img))
  {
    img := CreateImage();
    DrawPetals(img, ends, true);
    FillDiscPy(img, CentreX, CentreY, CentreRadius, Orange);
    text := WritePpm(img);
  }

  /** The petal loop over a white image, with the C++ or the Python line routine. */
  method DrawPetals(img: array2<Color>, ends: seq<(int, int)>, python: bool)
    requires IsImage(img)
    requires forall i, j :: 0 <= i < Height && 0 <= j < Width ==> img[i, j] == White
    modifies img
    ensures forall i, j :: 0 <= i < Height && 0 <= j < Width ==>
      img[i, j] == if OnPetal(ends, |ends|, i, j) then Yellow else White
  {
    var k := 0;
    while k < |ends|
      invariant 0 <= k <= |ends|
      invariant forall i, j :: 0 <= i < Height && 0 <= j < Width ==>
        img[i, j] == if OnPetal(ends, k, i, j) then Yellow else White
    {
      if python {
        DrawLinePy(img, CentreX, CentreY, ends[k].0, ends[k].1, Yellow);
      } else {
        DrawLine(img, CentreX, CentreY, ends[k].0, ends[k].1, Yellow);
      }
      k := k + 1;
    }
  }

  /** The two pictures differ only on the last column and the last row of the disc box,
      where the Python disc is missing cells; elsewhere they agree. */
  lemma PicturesAgreeOffEdge(ends: seq<(int, int)>, i: int, j: int)
    ensures j != CentreX + CentreRadius && i != CentreY + CentreRadius ==> Pixel(ends, i, j) == PixelPy(ends, i, j)
    ensures DiscCell(CentreX, CentreY, CentreRadius, j, i) && (j == CentreX + CentreRadius || i == CentreY + CentreRadius)
      ==> Pixel(ends, i, j) == Orange && PixelPy(ends, i, j) != Orange
  {
    PyDiscAsWritten(CentreX, CentreY, CentreRadius, j, i);
  }

  /** The cell at row 128, column 178 is orange in the C++ picture and not in the Python one. */
  lemma RightmostCentreCell(ends: seq<(int, int)>)
    ensures Pixel(ends, 128, 178) == Orange && PixelPy(ends, 128, 178) != Orange
  {
    PyDiscMissesEdge(CentreX, CentreY, CentreRadius);
  }
}
