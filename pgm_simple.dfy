/** The greyscale writer `escrever_pgm`, in its C++ form (a matrix given as a vector of rows)
    and its Python form (a NumPy array), both producing a binary Netpbm "P5" file: the magic
    number, the width, the height and the maximum value 255 in ASCII, then one byte per pixel
    in row-major order. The file is modelled by the sequence of octets written to it, each
    octet a `char` below 256 (C++ writes `char` buffers), or by the exception raised instead. */
module PgmSimple {
  import opened Results
  import opened Text

  datatype PgmError =
    | NotMatrix     // no rows or an empty first row (C++), or ndim != 2 (Python)
    | NotGreyscale  // some value below 0 or above 255
    | EmptyArray    // Python only: NumPy's min() of a zero-size array raises ValueError
    | CannotOpen    // the output file cannot be opened for writing

  predicate IsGrey(p: int) { 0 <= p <= 255 }

  predicate AllGrey(image: seq<seq<int>>)
  {
    forall i, j :: 0 <= i < |image| && 0 <= j < |image[i]| ==> IsGrey(image[i][j])
  }

  /** Every row has the width of the first one. */
  predicate Rectangular(image: seq<seq<int>>)
  {
    forall i :: 0 <= i < |image| ==> |image[i]| == |image[0]|
  }

  /** The rows one after another, as the packing loop visits them. */
  function Flatten(image: seq<seq<int>>): seq<int>
  {
    if image == [] then [] else image[0] + Flatten(image[1..])
  }

  /** `static_cast<unsigned char>(p)`: the value modulo 256, as one octet. */
  function Octet(p: int): char { (p % 256) as char }

  function Octets(data: seq<int>): (r: string)
    ensures |r| == |data| && forall k :: 0 <= k < |data| ==> r[k] == Octet(data[k])
  {
    seq(|data|, k requires 0 <= k < |data| => Octet(data[k]))
  }

  /** The header `"P5 <width> <height> 255\n"`. */
  function Header(width: nat, height: nat): string
  {
    "P5 " + NatText(width) + " " + NatText(height) + " 255\n"
  }

  /** What the C++ `escrever_pgm` writes to the file, or the exception it throws; `opens`
      says whether the output file can be opened. */
  function PgmFile(image: seq<seq<int>>, opens: bool): Result<string, PgmError>
  {
    if |image| == 0 || |image[0]| == 0 then Failure(NotMatrix)
    else if !AllGrey(image) then Failure(NotGreyscale)
    else if !opens then Failure(CannotOpen)
    else Success(Header(|image[0]|, |image|) + Octets(Flatten(image)))
  }

  lemma {:induction false} FlattenSnoc(image: seq<seq<int>>, row: seq<int>)
    ensures Flatten(image + [row]) == Flatten(image) + row
    decreases |image|
  {
    if image == [] {
      assert [row][1..] == [];
    } else {
      assert (image + [row])[1..] == image[1..] + [row];
      FlattenSnoc(image[1..], row);
    }
  }

  /** The inner loop of the second validation pass: whether every value of a row is a grey
      level. */
  method RowIsGrey(row: seq<int>) returns (ok: bool)
    ensures ok <==> forall b :: 0 <= b < |row| ==> IsGrey(row[b])
  {
    var j := 0;
    while j < |row|
      invariant 0 <= j <= |row|
      invariant forall b :: 0 <= b < j ==> IsGrey(row[b])
    {
      if row[j] < 0 || row[j] > 255 {
        return false;
      }
      j := j + 1;
    }
    return true;
  }

  /** The inner packing loop: one `push_back` of the octet of each value of a row. */
  method PackRow(data: string, row: seq<int>) returns (r: string)
    ensures r == data + Octets(row)
  {
    r := data;
    var j := 0;
    while j < |row|
      invariant 0 <= j <= |row|
      invariant r == data + Octets(row[..j])
    {
      assert row[..j + 1] == row[..j] + [row[j]];
      OctetsAppend(row[..j], [row[j]]);
      r := r + [Octet(row[j])];
      j := j + 1;
    }
    assert row[..j] == row;
  }

  /** The C++ `escrever_pgm`: the two validation passes, then the header and the
      `push_back` loop that packs one byte per pixel, then the (abstract) file open. */
  method WritePgm(image: seq<seq<int>>, opens: bool) returns (r: Result<string, PgmError>)
    ensures r == PgmFile(image, opens)
  {
    if |image| == 0 || |image[0]| == 0 {
      return Failure(NotMatrix);
    }
    var i := 0;
    while i < |image|
      invariant 0 <= i <= |image|
      invariant forall a, b :: 0 <= a < i && 0 <= b < |image[a]| ==> IsGrey(image[a][b])
    {
      var ok := RowIsGrey(image[i]);
      if !ok {
        return Failure(NotGreyscale);
      }
      i := i + 1;
    }
    var header := Header(|image[0]|, |image|);
    var data: string := [];
    i := 0;
    while i < |image|
      invariant 0 <= i <= |image|
      invariant data == Octets(Flatten(image[..i]))
    {
      data := PackRow(data, image[i]);
      assert image[..i + 1] == image[..i] + [image[i]];
      FlattenSnoc(image[..i], image[i]);
      OctetsAppend(Flatten(image[..i]), image[i]);
      i := i + 1;
    }
    assert image[..i] == image;
    if !opens {
      return Failure(CannotOpen);
    }
    r := Success(header + data);
  }

  // ---------------------------------------------------------------------------------------
  // Reading a P5 file back: the partner that the round trip is stated against.

  function Codes(s: string): (r: seq<int>)
    ensures |r| == |s| && forall k :: 0 <= k < |s| ==> r[k] == s[k] as int
  {
    seq(|s|, k requires 0 <= k < |s| => s[k] as int)
  }

  /** Cuts w*h octets into h rows of w values. */
  function Rows(data: string, w: nat, h: nat): seq<seq<int>>
    requires |data| == w * h
    decreases h
  {
    if h == 0 then [] else [Codes(data[..w])] + Rows(data[w..], w, h - 1)
  }

  /** Reads the header `"P5 <w> <h> 255\n"` and exactly w*h data octets. */
  function ParsePgm(f: string): Option<seq<seq<int>>>
  {
    if |f| < 3 || f[..3] != "P5 " then None
    else match ReadNat(f[3..])
      case None => None
      case Some((w, r1)) => ParseHeight(w, r1)
  }

  function ParseHeight(w: nat, r1: string): Option<seq<seq<int>>>
  {
    if |r1| < 1 || r1[0] != ' ' then None
    else match ReadNat(r1[1..])
      case None => None
      case Some((h, r2)) => ParseData(w, h, r2)
  }

  function ParseData(w: nat, h: nat, r2: string): Option<seq<seq<int>>>
  {
    if |r2| < 5 || r2[..5] != " 255\n" || |r2| - 5 != w * h then None
    else Some(Rows(r2[5..], w, h))
  }

  lemma {:induction false} FlattenRectangularLength(image: seq<seq<int>>, w: nat)
    requires forall i :: 0 <= i < |image| ==> |image[i]| == w
    ensures |Flatten(image)| == |image| * w
    decreases |image|
  {
    if image != [] {
      FlattenRectangularLength(image[1..], w);
    }
  }

  lemma {:induction false} RowsOfFlatten(image: seq<seq<int>>, w: nat)
    requires forall i :: 0 <= i < |image| ==> |image[i]| == w
    requires AllGrey(image)
    ensures |Octets(Flatten(image))| == w * |image|
    ensures Rows(Octets(Flatten(image)), w, |image|) == image
    decreases |image|
  {
    FlattenRectangularLength(image, w);
    if image != [] {
      var tail := image[1..];
      assert AllGrey(tail) by {
        forall i, j | 0 <= i < |tail| && 0 <= j < |tail[i]| ensures IsGrey(tail[i][j]) {
          assert tail[i] == image[i + 1];
        }
      }
      var data, head, rest := Octets(Flatten(image)), Octets(image[0]), Octets(Flatten(tail));
      OctetsAppend(image[0], Flatten(tail));
      assert data == head + rest;
      FlattenRectangularLength(tail, w);
      assert w * |image| == w + w * |tail|;
      assert data[..w] == head && data[w..] == rest;
      CodesOfOctets(image[0]);
      RowsOfFlatten(tail, w);
      assert [image[0]] + tail == image;
    }
  }

  lemma OctetsAppend(a: seq<int>, b: seq<int>)
    ensures Octets(a + b) == Octets(a) + Octets(b)
  {
  }

  /** Grey values survive the cast to an octet and back. */
  lemma CodesOfOctets(row: seq<int>)
    requires forall j :: 0 <= j < |row| ==> IsGrey(row[j])
    ensures Codes(Octets(row)) == row
  {
  }

  /** Reading a file that starts with a P5 header: the data is accepted exactly when it
      holds width * height octets, and is then cut into rows of the header's width. */
  lemma ParseAfterHeader(w: nat, h: nat, data: string)
    ensures ParsePgm(Header(w, h) + data) == if |data| == w * h then Some(Rows(data, w, h)) else None
  {
    var tail2 := " 255\n" + data;
    assert tail2[..5] == " 255\n" && tail2[5..] == data;
    assert ParseData(w, h, tail2) == if |data| == w * h then Some(Rows(data, w, h)) else None;
    var tail1 := " " + (NatText(h) + tail2);
    assert tail1[1..] == NatText(h) + tail2;
    ReadNatText(h, tail2);
    assert ParseHeight(w, tail1) == ParseData(w, h, tail2);
    var f := "P5 " + (NatText(w) + tail1);
    assert f == Header(w, h) + data;
    assert f[..3] == "P5 " && f[3..] == NatText(w) + tail1;
    ReadNatText(w, tail1);
  }

  /** Round trip: for a rectangular valid matrix, reading the written file back recovers the
      width, the height and every pixel. */
  lemma PgmRoundTrip(image: seq<seq<int>>)
    requires |image| > 0 && |image[0]| > 0 && Rectangular(image) && AllGrey(image)
    ensures PgmFile(image, true).Success?
    ensures ParsePgm(PgmFile(image, true).value) == Some(image)
  {
    RowsOfFlatten(image, |image[0]|);
    ParseAfterHeader(|image[0]|, |image|, Octets(Flatten(image)));
  }

  /** The file data holds one octet per pixel, in row-major order: octet k of the data is
      element k of the concatenated rows, and there are as many as the rows hold in all. */
  lemma PgmDataLayout(image: seq<seq<int>>, opens: bool)
    requires PgmFile(image, opens).Success?
    ensures var f := PgmFile(image, opens).value;
      var header := Header(|image[0]|, |image|);
      |f| == |header| + |Flatten(image)| && f[..|header|] == header
      && forall k :: 0 <= k < |Flatten(image)| ==> f[|header| + k] as int == Flatten(image)[k]
  {
    var f := PgmFile(image, opens).value;
    var header := Header(|image[0]|, |image|);
    assert f == header + Octets(Flatten(image));
    assert f[..|header|] == header;
    forall k | 0 <= k < |Flatten(image)|
      ensures f[|header| + k] as int == Flatten(image)[k]
    {
      FlattenGreyAt(image, k);
    }
  }

  /** Every element of the concatenated rows of a valid image is a grey value. */
  lemma {:induction false} FlattenGreyAt(image: seq<seq<int>>, k: nat)
    requires AllGrey(image) && k < |Flatten(image)|
    ensures IsGrey(Flatten(image)[k])
    decreases |image|
  {
    if image != [] {
      assert Flatten(image) == image[0] + Flatten(image[1..]);
      if k >= |image[0]| {
        FlattenGreyAt(image[1..], k - |image[0]|);
      }
    }
  }

  /** A valid image is one whose concatenated rows are all grey values, and conversely. */
  lemma {:induction false} AllGreyFlatten(image: seq<seq<int>>)
    ensures AllGrey(image) <==> forall k :: 0 <= k < |Flatten(image)| ==> IsGrey(Flatten(image)[k])
    decreases |image|
  {
    if image != [] {
      var tail := image[1..];
      AllGreyFlatten(tail);
      assert Flatten(image) == image[0] + Flatten(tail);
      if AllGrey(image) {
        assert AllGrey(tail) by {
          forall i, j | 0 <= i < |tail| && 0 <= j < |tail[i]| ensures IsGrey(tail[i][j]) {
            assert tail[i] == image[i + 1];
          }
        }
        forall k | 0 <= k < |Flatten(image)| ensures IsGrey(Flatten(image)[k]) {
          if k >= |image[0]| {
            assert Flatten(image)[k] == Flatten(tail)[k - |image[0]|];
          } else {
            assert Flatten(image)[k] == image[0][k];
          }
        }
      }
      if forall k :: 0 <= k < |Flatten(image)| ==> IsGrey(Flatten(image)[k]) {
        forall j | 0 <= j < |image[0]| ensures IsGrey(image[0][j]) {
          assert Flatten(image)[j] == image[0][j];
        }
        forall k | 0 <= k < |Flatten(tail)| ensures IsGrey(Flatten(tail)[k]) {
          assert Flatten(image)[|image[0]| + k] == Flatten(tail)[k];
        }
        forall i, j | 0 <= i < |image| && 0 <= j < |image[i]| ensures IsGrey(image[i][j]) {
          if i > 0 {
            assert image[i] == tail[i - 1];
          }
        }
      }
    }
  }

  /** Rejection: the writer fails exactly when the matrix has no rows, its first row is
      empty, some pixel lies outside [0, 255], or the file cannot be opened; the first two
      checks come before the file is opened, so an invalid image fails the same way whether
      or not the file could be opened, and no bytes are produced. */
  lemma PgmRejects(image: seq<seq<int>>, opens: bool)
    ensures PgmFile(image, opens).Failure? <==>
      |image| == 0 || |image[0]| == 0 || (exists i, j :: 0 <= i < |image| && 0 <= j < |image[i]| && !IsGrey(image[i][j])) || !opens
    ensures (|image| == 0 || |image[0]| == 0 || !AllGrey(image)) ==>
      PgmFile(image, opens) == PgmFile(image, true)
      && PgmFile(image, opens).error == (if |image| == 0 || |image[0]| == 0 then NotMatrix else NotGreyscale)
  {
  }

  // ---------------------------------------------------------------------------------------
  // Finding: rows are never checked for equal length.

  /** The C++ writer accepts the ragged matrix [[1, 2], [3]]: it writes the header of a
      2 x 2 image followed by only 3 data octets, a file that no reader accepts. */
  lemma RaggedImageAccepted()
    ensures PgmFile([[1, 2], [3]], true).Success?
    ensures |PgmFile([[1, 2], [3]], true).value| == |Header(2, 2)| + 3
    ensures ParsePgm(PgmFile([[1, 2], [3]], true).value) == None
  {
    var image: seq<seq<int>> := [[1, 2], [3]];
    assert Flatten(image) == [1, 2, 3] by {
      assert image[1..] == [[3]];
      assert |image[1..][1..]| == 0;
    }
    assert NatText(2) == "2";
    assert PgmFile(image, true).value == Header(2, 2) + Octets([1, 2, 3]);
    ParseAfterHeader(2, 2, Octets([1, 2, 3]));
  }

  /** The evidently intended writer: also rejects a matrix whose rows differ in length. */
  function PgmFileChecked(image: seq<seq<int>>, opens: bool): Result<string, PgmError>
  {
    if |image| == 0 || |image[0]| == 0 || !Rectangular(image) then Failure(NotMatrix)
    else PgmFile(image, opens)
  }

  /** With the length check, every file the writer produces reads back as its input. */
  lemma PgmFileCheckedRoundTrip(image: seq<seq<int>>, opens: bool)
    requires PgmFileChecked(image, opens).Success?
    ensures ParsePgm(PgmFileChecked(image, opens).value) == Some(image)
  {
    PgmRoundTrip(image);
  }

  // ---------------------------------------------------------------------------------------
  // The Python writer, over a NumPy array given by its shape and its C-order elements.

  datatype NdArray = NdArray(shape: seq<nat>, flat: seq<int>)

  function Size(shape: seq<nat>): nat
  {
    if shape == [] then 1 else shape[0] * Size(shape[1..])
  }

  predicate WellFormed(a: NdArray) { |a.flat| == Size(a.shape) }

  lemma SizeOfMatrix(h: nat, w: nat)
    ensures Size([h, w]) == h * w
  {
    assert [h, w][1..] == [w];
    assert [w][1..] == [];
    assert Size([w]) == w;
  }

  /** What the Python `escrever_pgm` writes: `ndim` must be 2; `min()`/`max()` raise on a
      zero-size array and otherwise bound every element; the header takes
      `(altura, largura) = shape`; `astype(uint8).tobytes()` is the elements in C order. */
  function PgmFilePy(a: NdArray, opens: bool): (r: Result<string, PgmError>)
    requires WellFormed(a)
    ensures r.Success? ==> |a.shape| == 2 && opens && 0 < a.shape[0] && 0 < a.shape[1]
    ensures r.Success? ==> var header := Header(a.shape[1], a.shape[0]);
      |r.value| == |header| + a.shape[0] * a.shape[1] && r.value[..|header|] == header
  {
    if |a.shape| != 2 then Failure(NotMatrix)
    else if |a.flat| == 0 then Failure(EmptyArray)
    else if !(forall k :: 0 <= k < |a.flat| ==> IsGrey(a.flat[k])) then Failure(NotGreyscale)
    else if !opens then Failure(CannotOpen)
    else
      assert a.shape == [a.shape[0], a.shape[1]];
      SizeOfMatrix(a.shape[0], a.shape[1]);
      Success(Header(a.shape[1], a.shape[0]) + Octets(a.flat))
  }

  /** The NumPy array `np.array(image)` of a non-empty rectangular matrix. */
  function ArrayOf(image: seq<seq<int>>): (a: NdArray)
    requires |image| > 0 && Rectangular(image)
    ensures WellFormed(a)
  {
    FlattenRectangularLength(image, |image[0]|);
    SizeOfMatrix(|image|, |image[0]|);
    NdArray([|image|, |image[0]|], Flatten(image))
  }

  /** On every non-empty rectangular matrix the two writers agree, except that the Python
      one reports an empty first row as a zero-size array rather than as "not 2-D". */
  lemma PyAgreesWithCpp(image: seq<seq<int>>, opens: bool)
    requires |image| > 0 && Rectangular(image)
    ensures |image[0]| > 0 ==> PgmFilePy(ArrayOf(image), opens) == PgmFile(image, opens)
    ensures |image[0]| == 0 ==>
      PgmFilePy(ArrayOf(image), opens) == Failure(EmptyArray) && PgmFile(image, opens) == Failure(NotMatrix)
  {
    FlattenRectangularLength(image, |image[0]|);
    AllGreyFlatten(image);
  }

  /** The Python writer's output reads back as the array's rows. */
  lemma PyRoundTrip(image: seq<seq<int>>)
    requires |image| > 0 && Rectangular(image)
    requires PgmFilePy(ArrayOf(image), true).Success?
    ensures ParsePgm(PgmFilePy(ArrayOf(image), true).value) == Some(image)
  {
    PyAgreesWithCpp(image, true);
    AllGreyFlatten(image);
    PgmRoundTrip(image);
  }

  /** The Python writer fails exactly on an array that is not 2-D, a zero-size array, a value
      outside 0..255 or a file that does not open; the first three fail before the open. */
  lemma PyRejects(a: NdArray, opens: bool)
    requires WellFormed(a)
    ensures PgmFilePy(a, opens).Failure? <==>
      |a.shape| != 2 || |a.flat| == 0 || (exists k :: 0 <= k < |a.flat| && !IsGrey(a.flat[k])) || !opens
    ensures (|a.shape| != 2 || |a.flat| == 0 || exists k :: 0 <= k < |a.flat| && !IsGrey(a.flat[k])) ==>
      PgmFilePy(a, opens) == PgmFilePy(a, true)
  {
  }

  /** The Python data is exactly altura × largura octets after the header, element k of the
      array in C order being octet k. */
  lemma PyDataLayout(a: NdArray, opens: bool)
    requires WellFormed(a) && PgmFilePy(a, opens).Success?
    ensures var f := PgmFilePy(a, opens).value;
      var header := Header(a.shape[1], a.shape[0]);
      |f| == |header| + a.shape[0] * a.shape[1] && f[..|header|] == header &&
      forall k :: 0 <= k < |a.flat| ==> f[|header| + k] as int == a.flat[k]
  {
    SizeOfMatrix(a.shape[0], a.shape[1]);
    assert a.shape == [a.shape[0], a.shape[1]];
    var header := Header(a.shape[1], a.shape[0]);
    forall k | 0 <= k < |a.flat|
      ensures PgmFilePy(a, opens).value[|header| + k] as int == a.flat[k]
    {
      assert IsGrey(a.flat[k]);
    }
  }

  /** The example of both programs: the 3 x 3 image yields `"P5 3 3 255\n"` followed by
      the bytes 0, 50, 100, 150, 200, 255, 220, 180, 130. */
  lemma ExampleImage()
    ensures var image := [[0, 50, 100], [150, 200, 255], [220, 180, 130]];
      PgmFile(image, true) == PgmFilePy(ArrayOf(image), true)
      == Success("P5 3 3 255\n" + Octets([0, 50, 100, 150, 200, 255, 220, 180, 130]))
  {
    var image: seq<seq<int>> := [[0, 50, 100], [150, 200, 255], [220, 180, 130]];
    assert Flatten(image) == [0, 50, 100, 150, 200, 255, 220, 180, 130] by {
      assert image[1..] == [[150, 200, 255], [220, 180, 130]];
      assert image[1..][1..] == [[220, 180, 130]];
      assert |image[1..][1..][1..]| == 0;
    }
    assert NatText(3) == "3";
    assert Header(3, 3) == "P5 3 3 255\n";
    assert AllGrey(image);
    PyAgreesWithCpp(image, true);
  }
}
