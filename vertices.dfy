/** Vertex data as the programs hand it to OpenGL: points of three floats, packed one after
    the other into a flat `GLfloat` array that an attribute slot reads three floats at a
    time. */
module Vertices {
  datatype Point = Point(x: real, y: real, z: real)

  function Coordinate(p: Point, axis: nat): real
  {
    if axis == 0 then p.x else if axis == 1 then p.y else p.z
  }

  /** The floats of a list of points, three per point, as a `GLfloat[]` holds them. */
  function PointFloats(ps: seq<Point>): (fs: seq<real>)
    ensures |fs| == 3 * |ps|
  {
    seq(3 * |ps|, k requires 0 <= k < 3 * |ps| => Coordinate(ps[k / 3], k % 3))
  }

  /** The floats of a list of faces, one face after the other. */
  function FaceFloats(faces: seq<seq<Point>>): seq<real>
  {
    if faces == [] then [] else PointFloats(faces[0]) + FaceFloats(faces[1..])
  }

  lemma {:induction false} FaceFloatsLength(faces: seq<seq<Point>>, n: nat)
    requires forall f :: 0 <= f < |faces| ==> |faces[f]| == n
    ensures |FaceFloats(faces)| == 3 * n * |faces|
  {
    if faces != [] {
      FaceFloatsLength(faces[1..], n);
      assert |PointFloats(faces[0])| == 3 * n;
      var m := |faces[1..]|;
      assert |faces| == m + 1;
      assert 3 * n * (m + 1) == 3 * n * m + 3 * n;
    }
  }

  /** With three floats per vertex and no gap between vertices, vertex i of the array is
      floats 3i, 3i + 1 and 3i + 2, which hold its x, y and z. */
  lemma PointFloatsLayout(ps: seq<Point>, i: nat, c: nat)
    requires i < |ps| && c < 3
    ensures 3 * i + c < |PointFloats(ps)|
    ensures PointFloats(ps)[3 * i + c] == Coordinate(ps[i], c)
  {
    assert (3 * i + c) / 3 == i && (3 * i + c) % 3 == c;
  }

  const Red: Point := Point(1.0, 0.0, 0.0)
  const Green: Point := Point(0.0, 1.0, 0.0)
  const Blue: Point := Point(0.0, 0.0, 1.0)
}
