/** `carregar_obj`: reads a Wavefront OBJ file line by line, keeping the coordinate tokens of
    `v` lines and `vn` lines and the 0-based vertex indices of `f` lines. The file is given as
    its sequence of lines. Coordinate tokens are kept as text: their conversion to floats is
    not part of this model, but the conversion of the coordinate lists to 2-D arrays, which
    fails when their rows differ in length, is. */
module ObjLoader {
  import opened Results
  import opened Text

  /** The three lists the loader builds, in file order. */
  datatype ObjModel = ObjModel(vertices: seq<seq<string>>, indices: seq<int>, normals: seq<seq<string>>)

  /** The ValueError `int()` raises on a face token, with the text it could not read, and the
      ValueError `np.array(..., dtype=np.float32)` raises on the vertex or the normal rows when
      they do not all have the same number of coordinates. */
  datatype ObjError = BadIndex(text: string) | RaggedVertices | RaggedNormals

  const Empty: ObjModel := ObjModel([], [], [])

  /** The text before the first '/', as `part.split('/')[0]`. */
  function BeforeSlash(s: string): (r: string)
    ensures |r| <= |s| && r == s[..|r|]
    ensures '/' !in r
    ensures |r| < |s| ==> s[|r|] == '/'
  {
    if s == [] || s[0] == '/' then [] else [s[0]] + BeforeSlash(s[1..])
  }

  /** Python's slice `partes[1:4]`: at most the three tokens after the tag. */
  function Coordinates(tokens: seq<string>): seq<string>
    requires |tokens| > 0
  {
    tokens[1..if |tokens| < 4 then |tokens| else 4]
  }

  /** One face token: the vertex number before the first '/', made 0-based. */
  function FaceIndex(token: string): Result<int, ObjError>
  {
    match ParseInt(BeforeSlash(token))
    case Some(n) => Success(n - 1)
    case None => Failure(BadIndex(BeforeSlash(token)))
  }

  /** The comprehension over the face tokens; the first bad token raises. */
  function FaceIndices(tokens: seq<string>): Result<seq<int>, ObjError>
  {
    if tokens == [] then Success([])
    else match (FaceIndex(tokens[0]), FaceIndices(tokens[1..]))
      case (Failure(e), _) => Failure(e)
      case (Success(_), Failure(e)) => Failure(e)
      case (Success(k), Success(ks)) => Success([k] + ks)
  }

  /** The effect of one line on the three lists. */
  function LoadLine(m: ObjModel, line: string): Result<ObjModel, ObjError>
  {
    var partes := Split(line);
    if |partes| == 0 then Success(m)
    else if partes[0] == "v" then Success(m.(vertices := m.vertices + [Coordinates(partes)]))
    else if partes[0] == "f" then
      match FaceIndices(partes[1..])
      case Failure(e) => Failure(e)
      case Success(ks) => Success(m.(indices := m.indices + ks))
    else if partes[0] == "vn" then Success(m.(normals := m.normals + [Coordinates(partes)]))
    else Success(m)
  }

  /** The model after the given lines, or the error of the first bad face token. */
  function Load(lines: seq<string>): Result<ObjModel, ObjError>
  {
    if lines == [] then Success(Empty)
    else match Load(lines[..|lines| - 1])
      case Failure(e) => Failure(e)
      case Success(m) => LoadLine(m, lines[|lines| - 1])
  }

  /** Every row has as many entries as every other, so that NumPy can make them a 2-D array. */
  predicate Rectangular(rows: seq<seq<string>>)
  {
    forall i, j :: 0 <= i < |rows| && 0 <= j < |rows| ==> |rows[i]| == |rows[j]|
  }

  /** The `return` of `carregar_obj`: the vertex rows are converted first, then the indices
      (their conversion is not part of this model), then the normal rows. */
  function Convert(m: ObjModel): Result<ObjModel, ObjError>
  {
    if !Rectangular(m.vertices) then Failure(RaggedVertices)
    else if !Rectangular(m.normals) then Failure(RaggedNormals)
    else Success(m)
  }

  /** `carregar_obj` on the lines of a file: the loop, then the conversion. */
  function LoadFile(lines: seq<string>): Result<ObjModel, ObjError>
  {
    match Load(lines)
    case Failure(e) => Failure(e)
    case Success(m) => Convert(m)
  }

  /** The loop of `carregar_obj`, appending to the three lists line by line, then the
      conversion of the lists to arrays. */
  method LoadObj(lines: seq<string>) returns (r: Result<ObjModel, ObjError>)
    ensures r == LoadFile(lines)
  {
    var vertices: seq<seq<string>> := [];
    var indices: seq<int> := [];
    var normals: seq<seq<string>> := [];
    var n := 0;
    while n < |lines|
      invariant 0 <= n <= |lines|
      invariant Load(lines[..n]) == Success(ObjModel(vertices, indices, normals))
    {
      assert lines[..n + 1][..n] == lines[..n];
      var partes := Split(lines[n]);
      if |partes| == 0 {
        n := n + 1;
        continue;
      }
      if partes[0] == "v" {
        vertices := vertices + [Coordinates(partes)];
      } else if partes[0] == "f" {
        var face := ReadFace(partes[1..]);
        if face.Failure? {
          LoadFailureStays(lines, n + 1);
          return Failure(face.error);
        }
        indices := indices + face.value;
      } else if partes[0] == "vn" {
        normals := normals + [Coordinates(partes)];
      }
      n := n + 1;
    }
    assert lines[..n] == lines;
    r := Convert(ObjModel(vertices, indices, normals));
  }

  /** The comprehension `[int(part.split('/')[0]) - 1 for part in partes[1:]]`. */
  method ReadFace(tokens: seq<string>) returns (r: Result<seq<int>, ObjError>)
    ensures r == FaceIndices(tokens)
  {
    var ks: seq<int> := [];
    var i := 0;
    while i < |tokens|
      invariant 0 <= i <= |tokens|
      invariant FaceIndices(tokens[..i]).Success? && FaceIndices(tokens[..i]).value == ks
    {
      FaceIndicesSnoc(tokens[..i], tokens[i]);
      assert tokens[..i + 1] == tokens[..i] + [tokens[i]];
      var k := FaceIndex(tokens[i]);
      if k.Failure? {
        FaceIndicesPrefixFails(tokens, i + 1);
        return Failure(k.error);
      }
      ks := ks + [k.value];
      i := i + 1;
    }
    assert tokens[..i] == tokens;
    r := Success(ks);
  }

  lemma {:induction false} FaceIndicesSnoc(ts: seq<string>, t: string)
    ensures FaceIndices(ts + [t]) ==
      match (FaceIndices(ts), FaceIndex(t))
      case (Failure(e), _) => Failure(e)
      case (Success(_), Failure(e)) => Failure(e)
      case (Success(ks), Success(k)) => Success(ks + [k])
    decreases |ts|
  {
    if ts == [] {
      assert ts + [t] == [t];
      assert [t][1..] == [];
      assert FaceIndices([t][1..]) == Success([]);
      if FaceIndex(t).Success? {
        var k := FaceIndex(t).value;
        assert [k] + [] == [] + [k];
      }
    } else {
      assert (ts + [t])[0] == ts[0];
      assert (ts + [t])[1..] == ts[1..] + [t];
      FaceIndicesSnoc(ts[1..], t);
      if FaceIndex(ts[0]).Success? && FaceIndices(ts[1..]).Success? && FaceIndex(t).Success? {
        var k0, ks, k := FaceIndex(ts[0]).value, FaceIndices(ts[1..]).value, FaceIndex(t).value;
        assert [k0] + (ks + [k]) == ([k0] + ks) + [k];
      }
    }
  }

  /** If the first n tokens contain a bad one, the whole face fails with the same error. */
  lemma {:induction false} FaceIndicesPrefixFails(ts: seq<string>, n: nat)
    requires n <= |ts| && FaceIndices(ts[..n]).Failure?
    ensures FaceIndices(ts) == FaceIndices(ts[..n])
    decreases |ts| - n
  {
    if n < |ts| {
      FaceIndicesSnoc(ts[..n], ts[n]);
      assert ts[..n + 1] == ts[..n] + [ts[n]];
      FaceIndicesPrefixFails(ts, n + 1);
    } else {
      assert ts[..n] == ts;
    }
  }

  /** Once the first n lines fail, so does the whole file, with the same error. */
  lemma {:induction false} LoadFailureStays(lines: seq<string>, n: nat)
    requires n <= |lines| && Load(lines[..n]).Failure?
    ensures Load(lines) == Load(lines[..n])
    decreases |lines| - n
  {
    if n < |lines| {
      assert lines[..n + 1][..n] == lines[..n];
      LoadFailureStays(lines, n + 1);
    } else {
      assert lines[..n] == lines;
    }
  }

  // ---------------------------------------------------------------------------------------
  // Properties.

  /** Whether the line's first token is the given tag. */
  predicate HasTag(line: string, tag: string)
  {
    var ps := Split(line);
    |ps| > 0 && ps[0] == tag
  }

  /** Lines of each kind change only their own list and only by appending: a blank line or a
      line with another tag changes nothing; a `v` or `vn` line appends one entry made of the
      tokens 2 to 4; an `f` line with n tokens after the tag appends exactly n indices. */
  lemma LineEffect(m: ObjModel, line: string)
    ensures !HasTag(line, "v") && !HasTag(line, "vn") && !HasTag(line, "f") ==> LoadLine(m, line) == Success(m)
    ensures HasTag(line, "v") ==>
      LoadLine(m, line) == Success(m.(vertices := m.vertices + [Coordinates(Split(line))]))
      && |Coordinates(Split(line))| == (if |Split(line)| < 4 then |Split(line)| - 1 else 3)
    ensures HasTag(line, "vn") ==>
      LoadLine(m, line) == Success(m.(normals := m.normals + [Coordinates(Split(line))]))
    ensures HasTag(line, "f") && LoadLine(m, line).Success? ==>
      (LoadLine(m, line).value.vertices == m.vertices && LoadLine(m, line).value.normals == m.normals
       && |LoadLine(m, line).value.indices| == |m.indices| + |Split(line)| - 1
       && LoadLine(m, line).value.indices[..|m.indices|] == m.indices)
  {
    var ps := Split(line);
    if |ps| > 0 && ps[0] == "f" && FaceIndices(ps[1..]).Success? {
      FaceIndicesLength(ps[1..]);
    }
  }

  /** A face yields one index per token, each the token's number minus one, in order. */
  lemma {:induction false} FaceIndicesLength(ts: seq<string>)
    requires FaceIndices(ts).Success?
    ensures |FaceIndices(ts).value| == |ts|
    ensures forall i :: 0 <= i < |ts| ==>
      (ParseInt(BeforeSlash(ts[i])).Some? && FaceIndices(ts).value[i] == ParseInt(BeforeSlash(ts[i])).value - 1)
    decreases |ts|
  {
    if ts != [] {
      FaceIndicesLength(ts[1..]);
    }
  }

  /** Python `int()` reads the printed vertex number, before any "/texture/normal" part. */
  lemma FaceTokenOfNumber(n: nat, rest: string)
    requires rest == [] || rest[0] == '/'
    ensures FaceIndex(NatText(n) + rest) == Success(n - 1)
  {
    var s := NatText(n) + rest;
    BeforeSlashOfNumber(NatText(n), rest);
    ParseIntText(n);
  }

  lemma {:induction false} BeforeSlashOfNumber(d: string, rest: string)
    requires AllDigits(d)
    requires rest == [] || rest[0] == '/'
    ensures BeforeSlash(d + rest) == d
    decreases |d|
  {
    if d == [] {
      assert d + rest == rest;
    } else {
      assert (d + rest)[1..] == d[1..] + rest;
      BeforeSlashOfNumber(d[1..], rest);
      assert [d[0]] + d[1..] == d;
    }
  }

  /** Face tokens made from 1-based vertex numbers read back as those numbers minus one. */
  lemma {:induction false} FaceIndicesOfNumbers(ks: seq<nat>, tails: seq<string>, ts: seq<string>)
    requires |tails| == |ks| && |ts| == |ks|
    requires forall i :: 0 <= i < |ks| ==> ts[i] == NatText(ks[i] + 1) + tails[i]
    requires forall i :: 0 <= i < |ks| ==> tails[i] == [] || tails[i][0] == '/'
    ensures FaceIndices(ts).Success? && |FaceIndices(ts).value| == |ks|
    ensures forall i :: 0 <= i < |ks| ==> FaceIndices(ts).value[i] == ks[i]
    decreases |ks|
  {
    if ks != [] {
      FaceTokenOfNumber(ks[0] + 1, tails[0]);
      FaceIndicesOfNumbers(ks[1..], tails[1..], ts[1..]);
      var rest := FaceIndices(ts[1..]).value;
      assert FaceIndices(ts).value == [ks[0] as int] + rest;
    }
  }

  /** How many lines have the given leading tag. */
  function TagCount(lines: seq<string>, tag: string): nat
  {
    if lines == [] then 0
    else TagCount(lines[..|lines| - 1], tag) + (if HasTag(lines[|lines| - 1], tag) then 1 else 0)
  }

  /** How many face tokens the `f` lines hold in all. */
  function FaceTokenCount(lines: seq<string>): nat
  {
    if lines == [] then 0
    else FaceTokenCount(lines[..|lines| - 1]) + FaceTokens(lines[|lines| - 1])
  }

  /** The number of tokens after the tag of an `f` line; 0 for any other line. */
  function FaceTokens(line: string): nat
  {
    if HasTag(line, "f") then |Split(line)| - 1 else 0
  }

  /** A loaded file has one vertex per `v` line, one normal per `vn` line and one index per
      face token: faces are not triangulated. */
  lemma {:induction false} LoadCounts(lines: seq<string>)
    requires Load(lines).Success?
    ensures |Load(lines).value.vertices| == TagCount(lines, "v")
    ensures |Load(lines).value.normals| == TagCount(lines, "vn")
    ensures |Load(lines).value.indices| == FaceTokenCount(lines)
    decreases |lines|
  {
    if lines != [] {
      var init := lines[..|lines| - 1];
      LoadCounts(init);
      LineEffect(Load(init).value, lines[|lines| - 1]);
    }
  }

  /** Loading is a left fold: the lines of a file that loads are processed in file order,
      so loading a + b continues from the model of a. */
  lemma {:induction false} LoadConcat(a: seq<string>, b: seq<string>)
    ensures Load(a + b) == match Load(a)
      case Failure(e) => Failure(e)
      case Success(m) => LoadFrom(m, b)
    decreases |b|
  {
    if b == [] {
      assert a + b == a;
    } else {
      assert (a + b)[..|a + b| - 1] == a + b[..|b| - 1];
      LoadConcat(a, b[..|b| - 1]);
    }
  }

  /** Processing lines from a given model. */
  function LoadFrom(m: ObjModel, lines: seq<string>): Result<ObjModel, ObjError>
  {
    if lines == [] then Success(m)
    else match LoadFrom(m, lines[..|lines| - 1])
      case Failure(e) => Failure(e)
      case Success(m2) => LoadLine(m2, lines[|lines| - 1])
  }

  /** A line is bad when it is an `f` line with a token whose number `int()` rejects. */
  predicate BadLine(line: string)
  {
    HasTag(line, "f") && FaceIndices(Split(line)[1..]).Failure?
  }

  /** Some line of the file is a bad face line. */
  predicate HasBadLine(lines: seq<string>)
  {
    exists i :: 0 <= i < |lines| && BadLine(lines[i])
  }

  lemma HasBadLineSnoc(lines: seq<string>)
    requires lines != []
    ensures HasBadLine(lines) <==> HasBadLine(lines[..|lines| - 1]) || BadLine(lines[|lines| - 1])
  {
    var init, last := lines[..|lines| - 1], lines[|lines| - 1];
    if HasBadLine(lines) {
      var i :| 0 <= i < |lines| && BadLine(lines[i]);
      if i < |init| {
        assert init[i] == lines[i];
        assert HasBadLine(init);
      } else {
        assert lines[i] == last;
      }
    }
    if HasBadLine(init) {
      var i :| 0 <= i < |init| && BadLine(init[i]);
      assert init[i] == lines[i];
      assert HasBadLine(lines);
    }
    if BadLine(last) {
      assert lines[|lines| - 1] == last;
      assert HasBadLine(lines);
    }
  }

  /** The loop fails exactly when some line is a bad face line. */
  lemma {:induction false} LoopFailsIff(lines: seq<string>)
    ensures Load(lines).Failure? <==> HasBadLine(lines)
    decreases |lines|
  {
    if lines != [] {
      var init := lines[..|lines| - 1];
      LoopFailsIff(init);
      HasBadLineSnoc(lines);
      if Load(init).Success? {
        LineFailsIff(Load(init).value, lines[|lines| - 1]);
      }
    }
  }

  lemma LineFailsIff(m: ObjModel, line: string)
    ensures LoadLine(m, line).Failure? <==> BadLine(line)
  {
  }

  /** The error names the text of the first bad token of the first bad line. */
  lemma FaceErrorIsToken(ts: seq<string>)
    requires FaceIndices(ts).Failure?
    ensures exists i :: (0 <= i < |ts| && ParseInt(BeforeSlash(ts[i])).None?
                         && FaceIndices(ts).error == BadIndex(BeforeSlash(ts[i]))
                         && forall j :: 0 <= j < i ==> ParseInt(BeforeSlash(ts[j])).Some?)
  {
    var i := FirstBad(ts);
  }

  /** The position of the first token `int()` rejects. */
  lemma {:induction false} FirstBad(ts: seq<string>) returns (i: nat)
    requires FaceIndices(ts).Failure?
    ensures i < |ts| && ParseInt(BeforeSlash(ts[i])).None?
    ensures FaceIndices(ts).error == BadIndex(BeforeSlash(ts[i]))
    ensures forall j :: 0 <= j < i ==> ParseInt(BeforeSlash(ts[j])).Some?
    decreases |ts|
  {
    if FaceIndex(ts[0]).Failure? {
      i := 0;
    } else {
      var k := FirstBad(ts[1..]);
      i := k + 1;
    }
  }

  /** The loop's error is that of the first bad face line: the first token there that `int()`
      rejects. */
  lemma {:induction false} FirstBadLine(lines: seq<string>) returns (k: nat)
    requires Load(lines).Failure?
    ensures k < |lines| && BadLine(lines[k])
    ensures forall j :: 0 <= j < k ==> !BadLine(lines[j])
    ensures Load(lines) == Failure(FaceIndices(Split(lines[k])[1..]).error)
    decreases |lines|
  {
    var init := lines[..|lines| - 1];
    if Load(init).Failure? {
      k := FirstBadLine(init);
      assert lines[k] == init[k];
      forall j | 0 <= j < k
        ensures !BadLine(lines[j])
      {
        assert lines[j] == init[j];
      }
    } else {
      k := |lines| - 1;
      LoopFailsIff(init);
      forall j | 0 <= j < k
        ensures !BadLine(lines[j])
      {
        assert lines[j] == init[j];
      }
    }
  }

  /** The rows the `v` lines (or the `vn` lines) contribute, each the tokens 2 to 4 of its
      line, in file order. */
  function TagRows(lines: seq<string>, tag: string): seq<seq<string>>
  {
    if lines == [] then []
    else
      var last := lines[|lines| - 1];
      TagRows(lines[..|lines| - 1], tag) + (if HasTag(last, tag) then [Coordinates(Split(last))] else [])
  }

  /** A loop that succeeds collects exactly the `v` rows and the `vn` rows of the file. */
  lemma {:induction false} LoadRows(lines: seq<string>)
    requires Load(lines).Success?
    ensures Load(lines).value.vertices == TagRows(lines, "v")
    ensures Load(lines).value.normals == TagRows(lines, "vn")
    decreases |lines|
  {
    if lines != [] {
      var init := lines[..|lines| - 1];
      LoadRows(init);
      LineEffect(Load(init).value, lines[|lines| - 1]);
    }
  }

  /** `carregar_obj` fails exactly when some face line holds a token `int()` rejects, or the
      `v` rows, or the `vn` rows, differ in length. A bad face line is reported first, with
      the first bad token of the first bad line; then ragged vertex rows; then ragged normal
      rows. */
  lemma LoadFailsIff(lines: seq<string>)
    ensures LoadFile(lines).Failure? <==>
      HasBadLine(lines) || !Rectangular(TagRows(lines, "v")) || !Rectangular(TagRows(lines, "vn"))
    ensures HasBadLine(lines) ==>
      exists k :: (0 <= k < |lines| && BadLine(lines[k]) &&
                   (forall j :: 0 <= j < k ==> !BadLine(lines[j])) &&
                   LoadFile(lines) == Failure(FaceIndices(Split(lines[k])[1..]).error))
    ensures !HasBadLine(lines) && !Rectangular(TagRows(lines, "v")) ==> LoadFile(lines) == Failure(RaggedVertices)
    ensures !HasBadLine(lines) && Rectangular(TagRows(lines, "v")) && !Rectangular(TagRows(lines, "vn")) ==>
      LoadFile(lines) == Failure(RaggedNormals)
  {
    LoopFailsIff(lines);
    if HasBadLine(lines) {
      var k := FirstBadLine(lines);
    } else {
      LoadRows(lines);
    }
  }
}
