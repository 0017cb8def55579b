/** The plain ("P3") Netpbm writer at the end of both sunflower programs: the header
    `"P3\n256 256\n255\n"`, then for every row each pixel as its three decimal components
    each followed by a space, and a newline after every row. The header's size is the
    constant image size, not the size of the data written. */
module Ppm {
  import opened Results
  import opened Text
  import opened Raster

  function PixelText(c: Color): string
  {
    IntText(c.r) + " " + IntText(c.g) + " " + IntText(c.b) + " "
  }

  function RowText(row: seq<Color>): string
  {
    if row == [] then "" else PixelText(row[0]) + RowText(row[1..])
  }

  function BodyText(rows: seq<seq<Color>>): string
  {
    if rows == [] then "" else RowText(rows[0]) + "\n" + BodyText(rows[1..])
  }

  function Header(): string
  {
    "P3\n" + NatText(Width) + " " + NatText(Height) + "\n255\n"
  }

  /** The whole file text. */
  function PpmText(rows: seq<seq<Color>>): string
  {
    Header() + BodyText(rows)
  }

  /** The pixels of an image, row by row. */
  function Contents(img: array2<Color>): (rows: seq<seq<Color>>)
    reads img
    ensures |rows| == img.Length0
    ensures forall i :: 0 <= i < |rows| ==> |rows[i]| == img.Length1
    ensures forall i, j :: 0 <= i < img.Length0 && 0 <= j < img.Length1 ==> rows[i][j] == img[i, j]
  {
    seq(img.Length0, i requires 0 <= i < img.Length0 reads img =>
      seq(img.Length1, j requires 0 <= j < img.Length1 reads img => img[i, j]))
  }

  lemma {:induction false} RowTextSnoc(row: seq<Color>, c: Color)
    ensures RowText(row + [c]) == RowText(row) + PixelText(c)
    decreases |row|
  {
    if row == [] {
      assert [c][1..] == [];
    } else {
      assert (row + [c])[1..] == row[1..] + [c];
      RowTextSnoc(row[1..], c);
    }
  }

  lemma {:induction false} BodyTextSnoc(rows: seq<seq<Color>>, row: seq<Color>)
    ensures BodyText(rows + [row]) == BodyText(rows) + RowText(row) + "\n"
    decreases |rows|
  {
    if rows == [] {
      assert [row][1..] == [];
    } else {
      assert (rows + [row])[1..] == rows[1..] + [row];
      BodyTextSnoc(rows[1..], row);
    }
  }

  lemma RowTextStep(row: seq<Color>, j: nat)
    requires j < |row|
    ensures RowText(row[..j + 1]) == RowText(row[..j]) + PixelText(row[j])
  {
    assert row[..j + 1] == row[..j] + [row[j]];
    RowTextSnoc(row[..j], row[j]);
  }

  lemma BodyTextStep(rows: seq<seq<Color>>, i: nat)
    requires i < |rows|
    ensures BodyText(rows[..i + 1]) == BodyText(rows[..i]) + RowText(rows[i]) + "\n"
  {
    assert rows[..i + 1] == rows[..i] + [rows[i]];
    BodyTextSnoc(rows[..i], rows[i]);
  }

  /** The writing loops of both programs: the text written for an image is PpmText of its
      pixels; the image is only read. */
  method WritePpm(img: array2<Color>) returns (text: string)
    requires IsImage(img)
    ensures text == PpmText(Contents(img))
  {
    ghost var rows := Contents(img);
    text := Header();
    var i := 0;
    while i < Height
      invariant 0 <= i <= Height
      invariant text == Header() + BodyText(rows[..i])
    {
      var line := WriteRow(img, i);
      text := text + line;
      text := text + "\n";
      BodyTextStep(rows, i);
      AppendLine(Header(), BodyText(rows[..i]), line);
      i := i + 1;
    }
    assert rows[..i] == rows;
  }

  lemma AppendPixel(s: string, c: Color)
    ensures s + IntText(c.r) + " " + IntText(c.g) + " " + IntText(c.b) + " " == s + PixelText(c)
  {
  }

  lemma AppendLine(h: string, body: string, line: string)
    ensures h + body + line + "\n" == h + (body + line + "\n")
  {
  }

  /** The inner loop: the pixels of row i, each as its three components and spaces. */
  method WriteRow(img: array2<Color>, i: int) returns (line: string)
    requires IsImage(img) && 0 <= i < Height
    ensures line == RowText(Contents(img)[i])
  {
    ghost var row := Contents(img)[i];
    line := "";
    var j := 0;
    while j < Width
      invariant 0 <= j <= Width
      invariant line == RowText(row[..j])
    {
      var pixel := img[i, j];
      assert pixel == row[j];
      ghost var before := line;
      line := line + IntText(pixel.r) + " " + IntText(pixel.g) + " " + IntText(pixel.b) + " ";
      AppendPixel(before, pixel);
      RowTextStep(row, j);
      j := j + 1;
    }
    assert row[..j] == row;
  }

  // ---------------------------------------------------------------------------------------
  // Reading a P3 file back, the partner of the writer.

  /** One pixel from three tokens. */
  function ParsePixel(r: string, g: string, b: string): Option<Color>
  {
    match (ParseInt(r), ParseInt(g), ParseInt(b))
    case (Some(vr), Some(vg), Some(vb)) => Some(Rgb(vr, vg, vb))
    case _ => None
  }

  /** n pixels from 3 * n tokens. */
  function ParseRow(ts: seq<string>, n: nat): Option<seq<Color>>
    requires |ts| == 3 * n
    decreases n
  {
    if n == 0 then Some([])
    else match (ParsePixel(ts[0], ts[1], ts[2]), ParseRow(ts[3..], n - 1))
      case (Some(c), Some(rest)) => Some([c] + rest)
      case _ => None
  }

  /** h rows of w pixels from 3 * w * h tokens. */
  function ParseRows(ts: seq<string>, w: nat, h: nat): Option<seq<seq<Color>>>
    requires |ts| == 3 * w * h
    decreases h
  {
    if h == 0 then Some([])
    else
      assert |ts| == 3 * w + 3 * w * (h - 1);
      match (ParseRow(ts[..3 * w], w), ParseRows(ts[3 * w..], w, h - 1))
      case (Some(row), Some(rest)) => Some([row] + rest)
      case _ => None
  }

  /** Splits the text on whitespace and reads its tokens. */
  function ParsePpm(text: string): Option<seq<seq<Color>>>
  {
    ParseTokens(Split(text))
  }

  /** Reads "P3", the width, the height and the maximum value 255, then exactly
      3 * width * height component values. */
  function ParseTokens(ts: seq<string>): Option<seq<seq<Color>>>
  {
    if |ts| < 4 || ts[0] != "P3" || ParseInt(ts[3]) != Some(255) then None
    else match (ParseInt(ts[1]), ParseInt(ts[2]))
      case (Some(w), Some(h)) =>
        if w < 0 || h < 0 || |ts| - 4 != 3 * w * h then None else ParseRows(ts[4..], w, h)
      case _ => None
  }

  function PixelTokens(c: Color): seq<string>
  {
    [IntText(c.r), IntText(c.g), IntText(c.b)]
  }

  function RowTokens(row: seq<Color>): seq<string>
  {
    if row == [] then [] else PixelTokens(row[0]) + RowTokens(row[1..])
  }

  function Tokens(rows: seq<seq<Color>>): seq<string>
  {
    if rows == [] then [] else RowTokens(rows[0]) + Tokens(rows[1..])
  }

  lemma IntTextIsWord(n: int)
    ensures |IntText(n)| > 0 && NoSpace(IntText(n))
  {
  }

  /** Three words, each followed by a space. */
  lemma SplitThreeWords(a: string, b: string, c: string, rest: string)
    requires |a| > 0 && NoSpace(a) && |b| > 0 && NoSpace(b) && |c| > 0 && NoSpace(c)
    ensures Split(a + [' '] + (b + [' '] + (c + [' '] + rest))) == [a, b, c] + Split(rest)
  {
    SplitWordsBetween(a, ' ', b, ' ', c, ' ', rest);
  }

  lemma SplitPixel(c: Color, rest: string)
    ensures Split(PixelText(c) + rest) == PixelTokens(c) + Split(rest)
  {
    IntTextIsWord(c.r);
    IntTextIsWord(c.g);
    IntTextIsWord(c.b);
    var r, g, b := IntText(c.r), IntText(c.g), IntText(c.b);
    assert PixelText(c) + rest == r + [' '] + (g + [' '] + (b + [' '] + rest));
    SplitThreeWords(r, g, b, rest);
  }

  lemma {:induction false} SplitRow(row: seq<Color>, rest: string)
    ensures Split(RowText(row) + rest) == RowTokens(row) + Split(rest)
    decreases |row|
  {
    if row == [] {
      assert RowText(row) + rest == rest;
    } else {
      assert RowText(row) + rest == PixelText(row[0]) + (RowText(row[1..]) + rest);
      SplitPixel(row[0], RowText(row[1..]) + rest);
      SplitRow(row[1..], rest);
    }
  }

  lemma {:induction false} SplitBody(rows: seq<seq<Color>>)
    ensures Split(BodyText(rows)) == Tokens(rows)
    decreases |rows|
  {
    if rows != [] {
      var rest := BodyText(rows[1..]);
      assert BodyText(rows) == RowText(rows[0]) + ("\n" + rest);
      SplitRow(rows[0], "\n" + rest);
      SplitSpace('\n', rest);
      SplitBody(rows[1..]);
    }
  }

  lemma Numeral256()
    ensures NatText(256) == "256"
  {
    assert NatText(2) == "2";
    assert NatText(25) == NatText(2) + ['5'];
  }

  lemma Numeral255()
    ensures NatText(255) == "255"
  {
    assert NatText(2) == "2";
    assert NatText(25) == NatText(2) + ['5'];
  }

  /** The header text, written out. */
  lemma HeaderText()
    ensures Header() == "P3\n256 256\n255\n"
  {
    Numeral256();
  }

  lemma SplitHeader(body: string)
    ensures Split("P3\n256 256\n255\n" + body) == ["P3", "256", "256", "255"] + Split(body)
  {
    var magic, size, max := "P3", "256", "255";
    assert NoSpace(magic) && NoSpace(size) && NoSpace(max);
    assert "P3\n256 256\n255\n" + body == magic + ['\n'] + (size + [' '] + (size + ['\n'] + (max + ['\n'] + body)));
    SplitFourWords(magic, '\n', size, ' ', size, '\n', max, '\n', body);
  }

  /** Four words, each followed by a whitespace character. */
  lemma SplitFourWords(m: string, sm: char, a: string, sa: char, b: string, sb: char, c: string, sc: char, rest: string)
    requires |m| > 0 && NoSpace(m) && IsSpace(sm)
    requires |a| > 0 && NoSpace(a) && |b| > 0 && NoSpace(b) && |c| > 0 && NoSpace(c)
    requires IsSpace(sa) && IsSpace(sb) && IsSpace(sc)
    ensures Split(m + [sm] + (a + [sa] + (b + [sb] + (c + [sc] + rest)))) == [m, a, b, c] + Split(rest)
  {
    SplitWordsBetween(a, sa, b, sb, c, sc, rest);
    SplitWord(m, sm, a + [sa] + (b + [sb] + (c + [sc] + rest)));
    assert [m] + ([a, b, c] + Split(rest)) == [m, a, b, c] + Split(rest);
  }

  /** Three words, each followed by a whitespace character. */
  lemma SplitWordsBetween(a: string, sa: char, b: string, sb: char, c: string, sc: char, rest: string)
    requires |a| > 0 && NoSpace(a) && |b| > 0 && NoSpace(b) && |c| > 0 && NoSpace(c)
    requires IsSpace(sa) && IsSpace(sb) && IsSpace(sc)
    ensures Split(a + [sa] + (b + [sb] + (c + [sc] + rest))) == [a, b, c] + Split(rest)
  {
    SplitWord(c, sc, rest);
    SplitWord(b, sb, c + [sc] + rest);
    SplitWord(a, sa, b + [sb] + (c + [sc] + rest));
    ConsThree(a, b, c, Split(rest));
  }

  lemma ConsThree(a: string, b: string, c: string, ws: seq<string>)
    ensures [a] + ([b] + ([c] + ws)) == [a, b, c] + ws
  {
  }

  /** The file's tokens: the magic number, the size, the maximum and then the components. */
  lemma SplitPpm(rows: seq<seq<Color>>)
    ensures Split(PpmText(rows)) == ["P3", "256", "256", "255"] + Tokens(rows)
  {
    HeaderText();
    SplitHeader(BodyText(rows));
    SplitBody(rows);
  }

  lemma {:induction false} RowTokensCount(row: seq<Color>)
    ensures |RowTokens(row)| == 3 * |row|
    decreases |row|
  {
    if row != [] {
      RowTokensCount(row[1..]);
    }
  }

  lemma {:induction false} TokensCount(rows: seq<seq<Color>>, w: nat)
    requires forall i :: 0 <= i < |rows| ==> |rows[i]| == w
    ensures |Tokens(rows)| == 3 * w * |rows|
    decreases |rows|
  {
    if rows != [] {
      RowTokensCount(rows[0]);
      TokensCount(rows[1..], w);
      assert 3 * w * |rows| == 3 * w + 3 * w * (|rows| - 1);
    }
  }

  lemma {:induction false} ParseRowTokens(row: seq<Color>)
    ensures |RowTokens(row)| == 3 * |row|
    ensures ParseRow(RowTokens(row), |row|) == Some(row)
    decreases |row|
  {
    RowTokensCount(row);
    if row != [] {
      var ts := RowTokens(row);
      ParseIntText(row[0].r);
      ParseIntText(row[0].g);
      ParseIntText(row[0].b);
      assert ts[3..] == RowTokens(row[1..]);
      ParseRowTokens(row[1..]);
      assert [row[0]] + row[1..] == row;
    }
  }

  lemma {:induction false} ParseRowsTokens(rows: seq<seq<Color>>, w: nat)
    requires forall i :: 0 <= i < |rows| ==> |rows[i]| == w
    ensures |Tokens(rows)| == 3 * w * |rows|
    ensures ParseRows(Tokens(rows), w, |rows|) == Some(rows)
    decreases |rows|
  {
    TokensCount(rows, w);
    if rows != [] {
      var ts := Tokens(rows);
      ParseRowTokens(rows[0]);
      assert ts[..3 * w] == RowTokens(rows[0]);
      assert ts[3 * w..] == Tokens(rows[1..]);
      ParseRowsTokens(rows[1..], w);
      assert [rows[0]] + rows[1..] == rows;
    }
  }

  /** Round trip: the text written for a 256 x 256 image reads back as the same pixels. */
  lemma PpmRoundTrip(rows: seq<seq<Color>>)
    requires |rows| == Height && forall i :: 0 <= i < |rows| ==> |rows[i]| == Width
    ensures ParsePpm(PpmText(rows)) == Some(rows)
  {
    SplitPpm(rows);
    ParseRowsTokens(rows, Width);
    ParseAfterHeader(Tokens(rows), rows);
  }

  lemma HeaderNumerals()
    ensures ParseInt("256") == Some(256) && ParseInt("255") == Some(255)
  {
    Numeral256();
    Numeral255();
    ParseIntText(256);
    ParseIntText(255);
  }

  /** The header's tokens followed by the components of a 256 x 256 image. */
  lemma ParseAfterHeader(body: seq<string>, rows: seq<seq<Color>>)
    requires |body| == 3 * Width * Height && ParseRows(body, Width, Height) == Some(rows)
    ensures ParseTokens(["P3", "256", "256", "255"] + body) == Some(rows)
  {
    HeaderNumerals();
    HeaderTokens(body);
  }

  lemma HeaderTokens(body: seq<string>)
    ensures var ts := ["P3", "256", "256", "255"] + body;
      |ts| == 4 + |body| && ts[0] == "P3" && ts[1] == "256" && ts[2] == "256" && ts[3] == "255" && ts[4..] == body
  {
  }
}
