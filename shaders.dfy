/** Building the GLSL program: the cube program reads each shader's source from a file line by
    line, and all three viewport programs create two shaders, compile them, link them into a
    program and delete the shaders. Whether a shader compiles or the program links is the
    driver's answer, given here as a parameter; so are the lines of a shader file (None when
    the file cannot be opened). */
module Shaders {
  import opened Results
  import opened GlTrace

  /** The source built from the lines `getline` returns: each line preceded by a newline. */
  function Joined(lines: seq<string>): string
  {
    if lines == [] then "" else "\n" + lines[0] + Joined(lines[1..])
  }

  /** The shader source of a file: empty when the file cannot be opened. */
  function ShaderSource(file: Option<seq<string>>): string
  {
    if file.None? then "" else Joined(file.value)
  }

  lemma {:induction false} JoinedSnoc(lines: seq<string>, line: string)
    ensures Joined(lines + [line]) == Joined(lines) + "\n" + line
  {
    if lines == [] {
      assert lines + [line] == [line];
      assert [line][1..] == [];
    } else {
      assert (lines + [line])[0] == lines[0];
      assert (lines + [line])[1..] == lines[1..] + [line];
      JoinedSnoc(lines[1..], line);
    }
  }

  /** The two `ifstream`/`getline` blocks of `carregarShaders`: `codigo += "\n" + linha` for
      every line of an open file, nothing for a file that does not open. */
  method ReadShaderSource(file: Option<seq<string>>) returns (code: string)
    ensures code == ShaderSource(file)
  {
    code := "";
    if file.Some? {
      var lines := file.value;
      var i := 0;
      while i < |lines|
        invariant 0 <= i <= |lines|
        invariant code == Joined(lines[..i])
      {
        assert lines[..i + 1] == lines[..i] + [lines[i]];
        JoinedSnoc(lines[..i], lines[i]);
        code := code + "\n" + lines[i];
        i := i + 1;
      }
      assert lines[..i] == lines;
    }
  }

  /** A file that cannot be opened gives the same (empty) source as an empty file, so the
      failure to open it goes unnoticed until compilation. */
  lemma MissingFileIsEmpty()
    ensures ShaderSource(None) == ShaderSource(Some([])) == ""
  {
  }

  /** Every line of the file counts once, plus one newline for it. */
  lemma {:induction false} JoinedLength(lines: seq<string>)
    ensures |Joined(lines)| == |lines| + TotalLength(lines)
  {
    if lines != [] {
      JoinedLength(lines[1..]);
    }
  }

  function TotalLength(lines: seq<string>): nat
  {
    if lines == [] then 0 else |lines[0]| + TotalLength(lines[1..])
  }

  predicate NoNewline(s: string)
  {
    forall i :: 0 <= i < |s| ==> s[i] != '\n'
  }

  /** How many characters of s come before its first newline. */
  function LineLength(s: string): (n: nat)
    ensures n <= |s|
    ensures NoNewline(s[..n]) && (n < |s| ==> s[n] == '\n')
  {
    if s == [] || s[0] == '\n' then 0
    else
      var n := LineLength(s[1..]);
      assert s[..n + 1] == [s[0]] + s[1..][..n];
      n + 1
  }

  /** The lines of a source built by `Joined`: each newline starts one. */
  function SourceLines(code: string): seq<string>
    decreases |code|
  {
    if code == [] then []
    else
      var rest := code[1..];
      var n := LineLength(rest);
      [rest[..n]] + SourceLines(rest[n..])
  }

  lemma {:induction false} LineLengthOf(line: string, rest: string)
    requires NoNewline(line) && (rest == [] || rest[0] == '\n')
    ensures LineLength(line + rest) == |line|
  {
    if line == [] {
      assert line + rest == rest;
    } else {
      assert (line + rest)[0] == line[0];
      assert (line + rest)[1..] == line[1..] + rest;
      LineLengthOf(line[1..], rest);
    }
  }

  /** The source keeps the file's lines: splitting it at its newlines gives them back, since a
      line from `getline` holds no newline. */
  lemma {:induction false} JoinedRoundTrip(lines: seq<string>)
    requires forall k :: 0 <= k < |lines| ==> NoNewline(lines[k])
    ensures SourceLines(Joined(lines)) == lines
  {
    if lines != [] {
      var code := Joined(lines);
      var tail := Joined(lines[1..]);
      assert code == "\n" + (lines[0] + tail);
      assert code[1..] == lines[0] + tail;
      assert tail == [] || tail[0] == '\n';
      LineLengthOf(lines[0], tail);
      assert (lines[0] + tail)[..|lines[0]|] == lines[0];
      assert (lines[0] + tail)[|lines[0]|..] == tail;
      JoinedRoundTrip(lines[1..]);
    }
  }

  /** The driver's answers: whether each shader compiles and whether the program links. */
  datatype Outcome = Outcome(vertexCompiles: bool, fragmentCompiles: bool, links: bool)

  /** What the C++ casa program prints: one message per failed step, in order. */
  datatype Complaint = VertexCompileFailed | FragmentCompileFailed | LinkFailed

  function Complaints(outcome: Outcome): seq<Complaint>
  {
    (if outcome.vertexCompiles then [] else [VertexCompileFailed]) +
    (if outcome.fragmentCompiles then [] else [FragmentCompileFailed]) +
    (if outcome.links then [] else [LinkFailed])
  }

  /** `carregarShaders` of the cube program and `CarregarShaders` of the C++ casa program:
      two shaders are created, compiled from the given sources, attached to a new program
      and linked; failures are only reported; both shaders are deleted and the program is
      returned whatever the driver answered. */
  method LoadProgram(gl: Gl, vertexSource: string, fragmentSource: string, outcome: Outcome)
      returns (program: Obj, report: seq<Complaint>)
    requires gl.Valid()
    modifies gl
    ensures gl.Valid()
    ensures program == Obj(ProgramObject, old(gl.next) + 2) && program !in old(gl.live)
    ensures gl.live == old(gl.live) + {program} && gl.next == old(gl.next) + 3
    ensures gl.trace == old(gl.trace)
    ensures report == Complaints(outcome)
  {
    var vertexShader := gl.Create(ShaderObject);
    var fragmentShader := gl.Create(ShaderObject);
    report := [];
    if !outcome.vertexCompiles {
      report := report + [VertexCompileFailed];
    }
    if !outcome.fragmentCompiles {
      report := report + [FragmentCompileFailed];
    }
    program := gl.Create(ProgramObject);
    if !outcome.links {
      report := report + [LinkFailed];
    }
    gl.Delete(vertexShader);
    gl.Delete(fragmentShader);
  }

  /** The exceptions the Python casa program raises. */
  datatype ShaderError = VertexCompileError | FragmentCompileError | LinkError

  /** The objects the Python `CarregarShaders` leaves behind when the driver hands out names
      from n on: the shaders (n, n + 1) when it raises, and the program (n + 2) once it has
      been created. */
  function LeftByPy(n: nat, outcome: Outcome): set<Obj>
  {
    var shaders := {Obj(ShaderObject, n), Obj(ShaderObject, n + 1)};
    var program := {Obj(ProgramObject, n + 2)};
    if !outcome.vertexCompiles || !outcome.fragmentCompiles then shaders
    else if !outcome.links then shaders + program
    else program
  }

  /** The driver accepts both shaders and the program. */
  predicate Accepted(outcome: Outcome)
  {
    outcome.vertexCompiles && outcome.fragmentCompiles && outcome.links
  }

  /** The exception the Python program raises first, for an outcome it does not accept. */
  function FirstError(outcome: Outcome): ShaderError
  {
    if !outcome.vertexCompiles then VertexCompileError
    else if !outcome.fragmentCompiles then FragmentCompileError
    else LinkError
  }

  /** The Python casa `CarregarShaders`: each failed step raises `RuntimeError`, so the
      shader deletions are reached only when both shaders compile and the program links. */
  method LoadProgramPy(gl: Gl, outcome: Outcome) returns (r: Result<Obj, ShaderError>)
    requires gl.Valid()
    modifies gl
    ensures gl.Valid() && gl.trace == old(gl.trace)
    ensures r.Success? <==> Accepted(outcome)
    ensures r.Failure? ==> r.error == FirstError(outcome)
    ensures r.Success? ==> r.value == Obj(ProgramObject, old(gl.next) + 2)
    ensures gl.live == old(gl.live) + LeftByPy(old(gl.next), outcome)
    ensures gl.next == old(gl.next) + (if outcome.vertexCompiles && outcome.fragmentCompiles then 3 else 2)
  {
    var vertexShader := gl.Create(ShaderObject);
    var fragmentShader := gl.Create(ShaderObject);
    if !outcome.vertexCompiles {
      return Failure(VertexCompileError);
    }
    if !outcome.fragmentCompiles {
      return Failure(FragmentCompileError);
    }
    var program := gl.Create(ProgramObject);
    if !outcome.links {
      return Failure(LinkError);
    }
    gl.Delete(vertexShader);
    gl.Delete(fragmentShader);
    r := Success(program);
  }

  /** The Python program leaves a shader object behind exactly when it raises, and leaves the
      program object behind exactly when it got as far as creating it. */
  lemma PyLeavesShadersOnFailure(n: nat, outcome: Outcome)
    ensures (exists o :: o in LeftByPy(n, outcome) && o.kind == ShaderObject) <==>
      !(outcome.vertexCompiles && outcome.fragmentCompiles && outcome.links)
    ensures Obj(ProgramObject, n + 2) in LeftByPy(n, outcome) <==>
      outcome.vertexCompiles && outcome.fragmentCompiles
  {
    var all := outcome.vertexCompiles && outcome.fragmentCompiles && outcome.links;
    if !all {
      assert Obj(ShaderObject, n) in LeftByPy(n, outcome);
    }
  }

  /** The C++ programs report a failure exactly when the driver refused a step, one report per
      refused step. */
  lemma ComplaintsReported(outcome: Outcome)
    ensures Complaints(outcome) == [] <==> outcome.vertexCompiles && outcome.fragmentCompiles && outcome.links
    ensures |Complaints(outcome)| ==
      (if outcome.vertexCompiles then 0 else 1) + (if outcome.fragmentCompiles then 0 else 1) +
      (if outcome.links then 0 else 1)
  {
  }
}
