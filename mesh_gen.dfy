/** The procedural primitives of MeshGen: each generator empties its two output
    buffers and fills them with interleaved vertices and triangle indices.
    Every generator is a method that builds its output in the source's loops and is
    proved equal to a specification function; the lemmas below state the counts,
    the index bounds, the exact triangles, the normals, the winding and the seams. */
module MeshGen {
  import opened Geometry

  /** Default resolutions of the generators' parameters. */
  const DEFAULT_CIRCLE_SEGMENTS: int := 32
  const DEFAULT_SPHERE_RINGS: int := 16
  const DEFAULT_SPHERE_SECTORS: int := 32
  const DEFAULT_CYLINDER_SEGMENTS: int := 32

  const PLUS_X := Vec3(1.0, 0.0, 0.0)
  const MINUS_X := Vec3(-1.0, 0.0, 0.0)
  const PLUS_Y := Vec3(0.0, 1.0, 0.0)
  const MINUS_Y := Vec3(0.0, -1.0, 0.0)
  const PLUS_Z := Vec3(0.0, 0.0, 1.0)
  const MINUS_Z := Vec3(0.0, 0.0, -1.0)

  // ---------------------------------------------------------------- circle

  function CircleCenter(): Vertex {
    Vertex(Vec3(0.0, 0.0, 0.0), PLUS_Z, Vec2(0.5, 0.5))
  }

  /** Rim vertex `i` of a circle with `segments` segments (unit radius, in the XY plane). */
  function CircleRim(i: int, segments: int, num: Numerics): Vertex {
    var angle := Angle(2.0 * PI, i, segments, num);
    var x := num.cos(angle);
    var y := num.sin(angle);
    Vertex(Vec3(x, y, 0.0), PLUS_Z, Vec2((x + 1.0) * 0.5, (y + 1.0) * 0.5))
  }

  /** The centre, then the rim vertices 0..segments (the last one closes the seam). */
  function CircleVertices(segments: int, num: Numerics): seq<Vertex> {
    [CircleCenter()] + seq(Count(segments), (i: nat) => CircleRim(i, segments, num))
  }

  /** Fan triangle for rim step `i = t + 1`: (centre, i, i + 1). */
  function CircleTriangle(t: nat): seq<nat> {
    [0, t + 1, t + 2]
  }

  function CircleIndices(segments: int): seq<nat> {
    Flatten(seq(Below(segments), (t: nat) => CircleTriangle(t)))
  }

  method Circle(num: Numerics, segments: int := DEFAULT_CIRCLE_SEGMENTS) returns (vertices: seq<Vertex>, indices: seq<nat>)
    ensures vertices == CircleVertices(segments, num)
    ensures indices == CircleIndices(segments)
  {
    vertices, indices := [], [];
    vertices := vertices + [Vertex(Vec3(0.0, 0.0, 0.0), Vec3(0.0, 0.0, 1.0), Vec2(0.5, 0.5))];
    var i := 0;
    while i <= segments
      invariant 0 <= i <= Count(segments)
      invariant vertices == [CircleCenter()] + seq(i, (k: nat) => CircleRim(k, segments, num))
    {
      var angle := Angle(2.0 * PI, i, segments, num);
      var x := num.cos(angle);
      var y := num.sin(angle);
      var rim := Vertex(Vec3(x, y, 0.0), Vec3(0.0, 0.0, 1.0), Vec2((x + 1.0) * 0.5, (y + 1.0) * 0.5));
      assert rim == CircleRim(i, segments, num);
      assert seq(i, (k: nat) => CircleRim(k, segments, num)) + [rim] == seq(i + 1, (k: nat) => CircleRim(k, segments, num));
      vertices := vertices + [rim];
      i := i + 1;
    }
    i := 1;
    while i <= segments
      invariant 1 <= i <= Below(segments) + 1
      invariant indices == Flatten(seq(i - 1, (t: nat) => CircleTriangle(t)))
    {
      ghost var done := seq(i - 1, (t: nat) => CircleTriangle(t));
      FlattenSnoc(done, CircleTriangle(i - 1));
      assert done + [CircleTriangle(i - 1)] == seq(i, (t: nat) => CircleTriangle(t));
      indices := indices + [0, i, i + 1];
      i := i + 1;
    }
  }

  /** A circle has segments + 2 vertices and 3 * segments indices; fan triangle `t` is
      (centre, t + 1, t + 2), so every index addresses a vertex; every normal is +Z. */
  lemma CircleShape(segments: int, num: Numerics)
    ensures |CircleVertices(segments, num)| == Count(segments) + 1
    ensures segments >= 1 ==> |CircleVertices(segments, num)| == segments + 2
    ensures |CircleIndices(segments)| == 3 * Below(segments)
    ensures forall t :: 0 <= t < Below(segments) ==> TriangleAt(CircleIndices(segments), t) == [0, t + 1, t + 2]
    ensures AllBelow(CircleIndices(segments), |CircleVertices(segments, num)|)
    ensures forall k :: 0 <= k < |CircleVertices(segments, num)| ==> CircleVertices(segments, num)[k].normal == PLUS_Z
  {
    var rows := seq(Below(segments), (t: nat) => CircleTriangle(t));
    var idx := CircleIndices(segments);
    FlattenLength(rows, 3);
    forall t | 0 <= t < Below(segments)
      ensures TriangleAt(idx, t) == [0, t + 1, t + 2]
    {
      FlattenAt(rows, 3, t, 0);
      FlattenAt(rows, 3, t, 1);
      FlattenAt(rows, 3, t, 2);
    }
    forall k | 0 <= k < |idx|
      ensures idx[k] < Count(segments) + 1
    {
      var t := k / 3;
      FlattenAt(rows, 3, t, k % 3);
      assert t * 3 + k % 3 == k;
    }
  }

  /** If cos and sin agree at 0 and 2 * PI, the last rim vertex repeats the first one. */
  lemma CircleSeam(segments: int, num: Numerics)
    requires segments >= 1
    requires num.cos(2.0 * PI) == num.cos(0.0) && num.sin(2.0 * PI) == num.sin(0.0)
    ensures CircleVertices(segments, num)[segments + 1] == CircleVertices(segments, num)[1]
  {
    assert Angle(2.0 * PI, segments, segments, num) == 2.0 * PI;
    assert Angle(2.0 * PI, 0, segments, num) == 0.0;
  }

  // ---------------------------------------------------------------- quad

  function QuadVertices(): seq<Vertex> {
    [ Vertex(Vec3(-0.5, -0.5, 0.0), PLUS_Z, Vec2(0.0, 0.0)),
      Vertex(Vec3( 0.5, -0.5, 0.0), PLUS_Z, Vec2(1.0, 0.0)),
      Vertex(Vec3( 0.5,  0.5, 0.0), PLUS_Z, Vec2(1.0, 1.0)),
      Vertex(Vec3(-0.5,  0.5, 0.0), PLUS_Z, Vec2(0.0, 1.0)) ]
  }

  /** The unit square in the XY plane: its corners are at +-0.5, every normal is +Z, the
      texture coordinate of a corner is its position shifted by 0.5, and the two triangles
      (0, 1, 2) and (0, 2, 3) both face +Z. The corners run counter-clockwise from the
      lower left: (-0.5, -0.5), (0.5, -0.5), (0.5, 0.5), (-0.5, 0.5). */
  method Quad() returns (vertices: seq<Vertex>, indices: seq<nat>)
    ensures vertices == QuadVertices()
    ensures |vertices| == 4 && indices == [0, 1, 2, 0, 2, 3]
    ensures vertices[0].position == Vec3(-0.5, -0.5, 0.0) && vertices[1].position == Vec3(0.5, -0.5, 0.0)
    ensures vertices[2].position == Vec3(0.5, 0.5, 0.0) && vertices[3].position == Vec3(-0.5, 0.5, 0.0)
    ensures forall k :: 0 <= k < 4 ==>
      && vertices[k].normal == PLUS_Z
      && vertices[k].position.z == 0.0
      && (vertices[k].position.x == 0.5 || vertices[k].position.x == -0.5)
      && (vertices[k].position.y == 0.5 || vertices[k].position.y == -0.5)
      && vertices[k].uv == Vec2(vertices[k].position.x + 0.5, vertices[k].position.y + 0.5)
    ensures forall j, k :: 0 <= j < k < 4 ==> vertices[j].position != vertices[k].position
    ensures AllBelow(indices, |vertices|) && FrontFacing(vertices, indices)
  {
    vertices, indices := [], [];
    vertices := QuadVertices();
    indices := [0, 1, 2, 0, 2, 3];
    QuadWinding();
  }

  lemma QuadWinding()
    ensures AllBelow([0, 1, 2, 0, 2, 3], 4) && FrontFacing(QuadVertices(), [0, 1, 2, 0, 2, 3])
  {
    var vs, idx: seq<nat> := QuadVertices(), [0, 1, 2, 0, 2, 3];
    var p0, p1, p2, p3 := vs[0].position, vs[1].position, vs[2].position, vs[3].position;
    assert p0 == Vec3(-0.5, -0.5, 0.0) && p1 == Vec3(0.5, -0.5, 0.0);
    assert p2 == Vec3(0.5, 0.5, 0.0) && p3 == Vec3(-0.5, 0.5, 0.0);
    assert Dot(Cross(Sub(p1, p0), Sub(p2, p0)), PLUS_Z) > 0.0;
    assert Dot(Cross(Sub(p2, p0), Sub(p3, p0)), PLUS_Z) > 0.0;
    WindingOf(vs, idx, 0, p0, p1, p2, PLUS_Z);
    WindingOf(vs, idx, 1, p0, p2, p3, PLUS_Z);
    assert |idx| / 3 == 2;
  }

  // ---------------------------------------------------------------- cube

  /** Outward normal of face `f`: front, back, right, left, top, bottom. */
  const CUBE_NORMALS: seq<Vec3> := [PLUS_Z, MINUS_Z, PLUS_X, MINUS_X, PLUS_Y, MINUS_Y]

  /** Corner positions of each face, counter-clockwise seen from outside. */
  const CUBE_POSITIONS: seq<seq<Vec3>> := [
    [Vec3(-0.5, -0.5,  0.5), Vec3( 0.5, -0.5,  0.5), Vec3( 0.5,  0.5,  0.5), Vec3(-0.5,  0.5,  0.5)],
    [Vec3( 0.5, -0.5, -0.5), Vec3(-0.5, -0.5, -0.5), Vec3(-0.5,  0.5, -0.5), Vec3( 0.5,  0.5, -0.5)],
    [Vec3( 0.5, -0.5,  0.5), Vec3( 0.5, -0.5, -0.5), Vec3( 0.5,  0.5, -0.5), Vec3( 0.5,  0.5,  0.5)],
    [Vec3(-0.5, -0.5, -0.5), Vec3(-0.5, -0.5,  0.5), Vec3(-0.5,  0.5,  0.5), Vec3(-0.5,  0.5, -0.5)],
    [Vec3(-0.5,  0.5,  0.5), Vec3( 0.5,  0.5,  0.5), Vec3( 0.5,  0.5, -0.5), Vec3(-0.5,  0.5, -0.5)],
    [Vec3(-0.5, -0.5, -0.5), Vec3( 0.5, -0.5, -0.5), Vec3( 0.5, -0.5,  0.5), Vec3(-0.5, -0.5,  0.5)]
  ]

  /** Texture coordinates of the four corners of every face. */
  const FACE_UVS: seq<Vec2> := [Vec2(0.0, 0.0), Vec2(1.0, 0.0), Vec2(1.0, 1.0), Vec2(0.0, 1.0)]

  function CubeFace(f: nat): seq<Vertex>
    requires f < 6
  {
    seq(4, (v: nat) requires v < 4 => Vertex(CUBE_POSITIONS[f][v], CUBE_NORMALS[f], FACE_UVS[v]))
  }

  function CubeVertices(): seq<Vertex> {
    Flatten(seq(6, (f: nat) requires f < 6 => CubeFace(f)))
  }

  /** The two triangles of face `f`, over its own vertices 4f..4f+3. */
  function CubeFaceIndices(f: nat): seq<nat> {
    [4 * f, 4 * f + 1, 4 * f + 2, 4 * f, 4 * f + 2, 4 * f + 3]
  }

  function CubeIndices(): seq<nat> {
    Flatten(seq(6, (f: nat) => CubeFaceIndices(f)))
  }

  method Cube() returns (vertices: seq<Vertex>, indices: seq<nat>)
    ensures vertices == CubeVertices()
    ensures indices == CubeIndices()
  {
    vertices, indices := [], [];
    var face := 0;
    while face < 6
      invariant 0 <= face <= 6
      invariant vertices == Flatten(seq(face, (f: nat) requires f < 6 => CubeFace(f)))
      invariant indices == Flatten(seq(face, (f: nat) => CubeFaceIndices(f)))
    {
      ghost var doneV := seq(face, (f: nat) requires f < 6 => CubeFace(f));
      ghost var doneI := seq(face, (f: nat) => CubeFaceIndices(f));
      FlattenLength(doneV, 4);
      var base := |vertices|;
      assert base == 4 * face;
      vertices := AppendCubeFace(vertices, face);
      indices := indices + [base, base + 1, base + 2, base, base + 2, base + 3];
      CubeVerticesStep(face, doneV);
      CubeIndicesStep(face, doneI);
      face := face + 1;
    }
  }

  /** The inner loop of `Cube`: the four corners of one face. */
  method AppendCubeFace(acc: seq<Vertex>, face: nat) returns (vertices: seq<Vertex>)
    requires face < 6
    ensures vertices == acc + CubeFace(face)
  {
    vertices := acc;
    var v := 0;
    while v < 4
      invariant 0 <= v <= 4
      invariant vertices == acc + CubeFace(face)[..v]
    {
      var corner := Vertex(CUBE_POSITIONS[face][v], CUBE_NORMALS[face], FACE_UVS[v]);
      CubeFaceStep(face, v, corner);
      vertices := vertices + [corner];
      v := v + 1;
    }
    assert CubeFace(face)[..4] == CubeFace(face);
  }

  lemma CubeFaceStep(face: nat, v: nat, corner: Vertex)
    requires face < 6 && v < 4
    requires corner == Vertex(CUBE_POSITIONS[face][v], CUBE_NORMALS[face], FACE_UVS[v])
    ensures CubeFace(face)[..v + 1] == CubeFace(face)[..v] + [corner]
  {}
  lemma CubeVerticesStep(face: nat, doneV: seq<seq<Vertex>>)
    requires face < 6
    requires doneV == seq(face, (f: nat) requires f < 6 => CubeFace(f))
    ensures Flatten(seq(face + 1, (f: nat) requires f < 6 => CubeFace(f))) == Flatten(doneV) + CubeFace(face)
  {
    var next := seq(face + 1, (f: nat) requires f < 6 => CubeFace(f));
    assert next[..face] == doneV;
    assert next[face] == CubeFace(face);
  }

  lemma CubeIndicesStep(face: nat, doneI: seq<seq<nat>>)
    requires doneI == seq(face, (f: nat) => CubeFaceIndices(f))
    ensures Flatten(seq(face + 1, (f: nat) => CubeFaceIndices(f))) == Flatten(doneI) + CubeFaceIndices(face)
  {
    var next := seq(face + 1, (f: nat) => CubeFaceIndices(f));
    assert next[..face] == doneI;
  }

  lemma CubeVertexAt(f: nat, v: nat)
    requires f < 6 && v < 4
    ensures |CubeVertices()| == 24
    ensures CubeVertices()[4 * f + v] == Vertex(CUBE_POSITIONS[f][v], CUBE_NORMALS[f], FACE_UVS[v])
  {
    var faces := seq(6, (g: nat) requires g < 6 => CubeFace(g));
    FlattenLength(faces, 4);
    FlattenAt(faces, 4, f, v);
    assert f * 4 == 4 * f;
    assert faces[f][v] == CubeFace(f)[v];
  }

  lemma CubeIndexAt(f: nat, c: nat)
    requires f < 6 && c < 6
    ensures |CubeIndices()| == 36
    ensures CubeIndices()[6 * f + c] == CubeFaceIndices(f)[c]
  {
    var tris := seq(6, (g: nat) => CubeFaceIndices(g));
    FlattenLength(tris, 6);
    FlattenAt(tris, 6, f, c);
    assert f * 6 == 6 * f;
  }

  /** A cube has 24 vertices and 36 indices; face `f` owns vertices 4f..4f+3, which all carry
      the face's normal and the texture coordinates (0,0), (1,0), (1,1), (0,1); its two
      triangles are (4f, 4f+1, 4f+2) and (4f, 4f+2, 4f+3). */
  lemma {:induction false} CubeLayout()
    ensures |CubeVertices()| == 24 && |CubeIndices()| == 36
    ensures forall k :: 0 <= k < 24 ==>
      CubeVertices()[k] == Vertex(CUBE_POSITIONS[k / 4][k % 4], CUBE_NORMALS[k / 4], FACE_UVS[k % 4])
    ensures forall f :: 0 <= f < 6 ==>
      CubeIndices()[6 * f .. 6 * f + 6] == [4 * f, 4 * f + 1, 4 * f + 2, 4 * f, 4 * f + 2, 4 * f + 3]
    ensures AllBelow(CubeIndices(), 24)
  {
    CubeVertexAt(0, 0);
    CubeIndexAt(0, 0);
    var vs, idx := CubeVertices(), CubeIndices();
    forall k | 0 <= k < 24
      ensures vs[k] == Vertex(CUBE_POSITIONS[k / 4][k % 4], CUBE_NORMALS[k / 4], FACE_UVS[k % 4])
    {
      CubeVertexAt(k / 4, k % 4);
      assert 4 * (k / 4) + k % 4 == k;
    }
    forall f | 0 <= f < 6
      ensures idx[6 * f .. 6 * f + 6] == [4 * f, 4 * f + 1, 4 * f + 2, 4 * f, 4 * f + 2, 4 * f + 3]
    {
      CubeIndexAt(f, 0); CubeIndexAt(f, 1); CubeIndexAt(f, 2);
      CubeIndexAt(f, 3); CubeIndexAt(f, 4); CubeIndexAt(f, 5);
    }
    forall k | 0 <= k < 36 ensures idx[k] < 24 {
      CubeIndexAt(k / 6, k % 6);
      assert 6 * (k / 6) + k % 6 == k;
    }
  }

  /** Both triangles of a face winding counter-clockwise around normal `n`, which points
      away from the centre at every corner. */
  predicate FaceWinds(p: seq<Vec3>, n: Vec3)
    requires |p| == 4
  {
    && Dot(Cross(Sub(p[1], p[0]), Sub(p[2], p[0])), n) > 0.0
    && Dot(Cross(Sub(p[2], p[0]), Sub(p[3], p[0])), n) > 0.0
    && Dot(p[0], n) > 0.0 && Dot(p[1], n) > 0.0 && Dot(p[2], n) > 0.0 && Dot(p[3], n) > 0.0
  }

  lemma CubeFrontFaceWinds()
    ensures FaceWinds(CUBE_POSITIONS[0], CUBE_NORMALS[0])
  {
    assert CUBE_POSITIONS[0] == [Vec3(-0.5, -0.5,  0.5), Vec3( 0.5, -0.5,  0.5), Vec3( 0.5,  0.5,  0.5), Vec3(-0.5,  0.5,  0.5)];
  }

  lemma CubeBackFaceWinds()
    ensures FaceWinds(CUBE_POSITIONS[1], CUBE_NORMALS[1])
  {
    assert CUBE_POSITIONS[1] == [Vec3( 0.5, -0.5, -0.5), Vec3(-0.5, -0.5, -0.5), Vec3(-0.5,  0.5, -0.5), Vec3( 0.5,  0.5, -0.5)];
  }

  lemma CubeRightFaceWinds()
    ensures FaceWinds(CUBE_POSITIONS[2], CUBE_NORMALS[2])
  {
    assert CUBE_POSITIONS[2] == [Vec3( 0.5, -0.5,  0.5), Vec3( 0.5, -0.5, -0.5), Vec3( 0.5,  0.5, -0.5), Vec3( 0.5,  0.5,  0.5)];
  }

  lemma CubeLeftFaceWinds()
    ensures FaceWinds(CUBE_POSITIONS[3], CUBE_NORMALS[3])
  {
    assert CUBE_POSITIONS[3] == [Vec3(-0.5, -0.5, -0.5), Vec3(-0.5, -0.5,  0.5), Vec3(-0.5,  0.5,  0.5), Vec3(-0.5,  0.5, -0.5)];
  }

  lemma CubeTopFaceWinds()
    ensures FaceWinds(CUBE_POSITIONS[4], CUBE_NORMALS[4])
  {
    assert CUBE_POSITIONS[4] == [Vec3(-0.5,  0.5,  0.5), Vec3( 0.5,  0.5,  0.5), Vec3( 0.5,  0.5, -0.5), Vec3(-0.5,  0.5, -0.5)];
  }

  lemma CubeBottomFaceWinds()
    ensures FaceWinds(CUBE_POSITIONS[5], CUBE_NORMALS[5])
  {
    assert CUBE_POSITIONS[5] == [Vec3(-0.5, -0.5, -0.5), Vec3( 0.5, -0.5, -0.5), Vec3( 0.5, -0.5,  0.5), Vec3(-0.5, -0.5,  0.5)];
  }

  // ---------------------------------------------------------------- sphere

  /** The vertex at ring `r`, sector `s`: a point of the unit sphere scaled to radius 0.5,
      its normalised direction as normal, and texture coordinate (s / sectors, r / rings). */
  function SphereVertex(r: int, s: int, rings: int, sectors: int, num: Numerics): Vertex {
    var phi := Angle(PI, r, rings, num);
    var y := num.cos(phi);
    var ringRadius := num.sin(phi);
    var theta := Angle(2.0 * PI, s, sectors, num);
    var pos := Vec3(ringRadius * num.cos(theta), y, ringRadius * num.sin(theta));
    Vertex(Scale(pos, 0.5), num.normalize(pos), Vec2(Ratio(s, sectors, num), Ratio(r, rings, num)))
  }

  /** Ring `r`: sectors 0..sectors, the last one repeating the first at the seam. */
  function SphereRow(r: int, rings: int, sectors: int, num: Numerics): seq<Vertex> {
    seq(Count(sectors), (s: nat) => SphereVertex(r, s, rings, sectors, num))
  }

  function SphereVertices(rings: int, sectors: int, num: Numerics): seq<Vertex> {
    Flatten(seq(Count(rings), (r: nat) => SphereRow(r, rings, sectors, num)))
  }

  /** The two triangles of the cell between rings r, r + 1 and sectors s, s + 1. */
  function SphereCell(r: nat, s: nat, sectors: nat): seq<nat> {
    var cur := r * (sectors + 1) + s;
    var next := cur + sectors + 1;
    [cur, next, cur + 1, cur + 1, next, next + 1]
  }

  function SphereRowIndices(r: nat, sectors: int): seq<nat> {
    Flatten(seq(Below(sectors), (s: nat) => SphereCell(r, s, Below(sectors))))
  }

  function SphereIndices(rings: int, sectors: int): seq<nat> {
    Flatten(seq(Below(rings), (r: nat) => SphereRowIndices(r, sectors)))
  }

  method Sphere(num: Numerics, rings: int := DEFAULT_SPHERE_RINGS, sectors: int := DEFAULT_SPHERE_SECTORS)
    returns (vertices: seq<Vertex>, indices: seq<nat>)
    ensures vertices == SphereVertices(rings, sectors, num)
    ensures indices == SphereIndices(rings, sectors)
  {
    vertices := SphereRings(num, rings, sectors);
    indices := SphereCells(rings, sectors);
  }

  /** The first loop nest of `Sphere`: one vertex per ring and sector. */
  method SphereRings(num: Numerics, rings: int, sectors: int) returns (vertices: seq<Vertex>)
    ensures vertices == SphereVertices(rings, sectors, num)
  {
    vertices := [];
    var r := 0;
    while r <= rings
      invariant 0 <= r <= Count(rings)
      invariant vertices == Flatten(seq(r, (i: nat) => SphereRow(i, rings, sectors, num)))
    {
      ghost var done := seq(r, (i: nat) => SphereRow(i, rings, sectors, num));
      var s := 0;
      while s <= sectors
        invariant 0 <= s <= Count(sectors)
        invariant vertices == Flatten(done) + seq(s, (j: nat) => SphereVertex(r, j, rings, sectors, num))
      {
        SphereRowStep(r, s, rings, sectors, num);
        vertices := vertices + [SphereVertex(r, s, rings, sectors, num)];
        s := s + 1;
      }
      SphereRowsStep(r, done, rings, sectors, num);
      r := r + 1;
    }
  }

  /** The second loop nest of `Sphere`: two triangles per cell. */
  method SphereCells(rings: int, sectors: int) returns (indices: seq<nat>)
    ensures indices == SphereIndices(rings, sectors)
  {
    indices := [];
    var r := 0;
    while r < rings
      invariant 0 <= r <= Below(rings)
      invariant indices == Flatten(seq(r, (i: nat) => SphereRowIndices(i, sectors)))
    {
      ghost var done := seq(r, (i: nat) => SphereRowIndices(i, sectors));
      indices := SphereRowCells(indices, r, sectors);
      SphereIndexRowsStep(r, done, sectors);
      r := r + 1;
    }
  }

  /** The inner loop of `SphereCells`: appends the cells between rings `r` and `r + 1`. */
  method SphereRowCells(acc: seq<nat>, r: nat, sectors: int) returns (indices: seq<nat>)
    ensures indices == acc + SphereRowIndices(r, sectors)
  {
    indices := acc;
    var s := 0;
    while s < sectors
      invariant 0 <= s <= Below(sectors)
      invariant indices == acc + Flatten(seq(s, (j: nat) => SphereCell(r, j, Below(sectors))))
    {
      var cur := r * (sectors + 1) + s;
      var next := cur + sectors + 1;
      MulMono(0, r, sectors + 1);
      var cell: seq<nat> := [cur, next, cur + 1, cur + 1, next, next + 1];
      SphereCellStep(r, s, sectors, cell);
      ghost var before := Flatten(seq(s, (j: nat) => SphereCell(r, j, Below(sectors))));
      assert indices + cell == acc + (before + cell);
      indices := indices + cell;
      s := s + 1;
    }
  }

  lemma SphereRowStep(r: int, s: nat, rings: int, sectors: int, num: Numerics)
    ensures seq(s + 1, (j: nat) => SphereVertex(r, j, rings, sectors, num))
         == seq(s, (j: nat) => SphereVertex(r, j, rings, sectors, num)) + [SphereVertex(r, s, rings, sectors, num)]
  {
  }

  lemma SphereRowsStep(r: nat, done: seq<seq<Vertex>>, rings: int, sectors: int, num: Numerics)
    requires done == seq(r, (i: nat) => SphereRow(i, rings, sectors, num))
    ensures Flatten(seq(r + 1, (i: nat) => SphereRow(i, rings, sectors, num)))
         == Flatten(done) + seq(Count(sectors), (j: nat) => SphereVertex(r, j, rings, sectors, num))
  {
    var next := seq(r + 1, (i: nat) => SphereRow(i, rings, sectors, num));
    assert next[..r] == done;
  }

  lemma SphereCellStep(r: nat, s: nat, sectors: int, cell: seq<nat>)
    requires s < sectors
    requires cell == SphereCell(r, s, sectors)
    ensures Flatten(seq(s + 1, (j: nat) => SphereCell(r, j, Below(sectors))))
         == Flatten(seq(s, (j: nat) => SphereCell(r, j, Below(sectors)))) + cell
  {
    var prev := seq(s, (j: nat) => SphereCell(r, j, Below(sectors)));
    assert seq(s + 1, (j: nat) => SphereCell(r, j, Below(sectors))) == prev + [cell];
    FlattenSnoc(prev, cell);
  }

  lemma SphereIndexRowsStep(r: nat, done: seq<seq<nat>>, sectors: int)
    requires done == seq(r, (i: nat) => SphereRowIndices(i, sectors))
    ensures Flatten(seq(r + 1, (i: nat) => SphereRowIndices(i, sectors)))
         == Flatten(done) + Flatten(seq(Below(sectors), (j: nat) => SphereCell(r, j, Below(sectors))))
  {
    var next := seq(r + 1, (i: nat) => SphereRowIndices(i, sectors));
    assert next[..r] == done;
  }

  /** A sphere has (rings + 1)(sectors + 1) vertices and 6 * rings * sectors indices. */
  lemma SphereCounts(rings: int, sectors: int, num: Numerics)
    ensures |SphereVertices(rings, sectors, num)| == Count(rings) * Count(sectors)
    ensures |SphereIndices(rings, sectors)| == 6 * Below(rings) * Below(sectors)
    ensures rings >= 0 && sectors >= 0 ==> |SphereVertices(rings, sectors, num)| == (rings + 1) * (sectors + 1)
    ensures rings >= 0 && sectors >= 0 ==> |SphereIndices(rings, sectors)| == 6 * rings * sectors
  {
    FlattenLength(seq(Count(rings), (r: nat) => SphereRow(r, rings, sectors, num)), Count(sectors));
    SphereIndexCount(rings, sectors);
  }

  lemma SphereIndexCount(rings: int, sectors: int)
    ensures |SphereIndices(rings, sectors)| == 6 * Below(rings) * Below(sectors)
  {
    var rows := seq(Below(rings), (r: nat) => SphereRowIndices(r, sectors));
    forall i | 0 <= i < |rows| ensures |rows[i]| == 6 * Below(sectors) {
      SphereRowLength(i, sectors);
    }
    FlattenLength(rows, 6 * Below(sectors));
    SixfoldProduct(Below(rings), Below(sectors));
  }

  lemma SixfoldProduct(a: nat, b: nat)
    ensures a * (6 * b) == 6 * a * b
  {
  }

  /** The vertex of ring `r` and sector `s` sits at slot r(sectors + 1) + s; its texture
      coordinate is (s / sectors, r / rings). */
  lemma SphereVertexAt(rings: int, sectors: int, num: Numerics, r: nat, s: nat)
    requires r <= rings && s <= sectors
    ensures r * (sectors + 1) + s < |SphereVertices(rings, sectors, num)|
    ensures SphereVertices(rings, sectors, num)[r * (sectors + 1) + s] == SphereVertex(r, s, rings, sectors, num)
    ensures SphereVertices(rings, sectors, num)[r * (sectors + 1) + s].uv
         == Vec2(Ratio(s, sectors, num), Ratio(r, rings, num))
    ensures rings != 0 && sectors != 0 ==>
      SphereVertices(rings, sectors, num)[r * (sectors + 1) + s].uv == Vec2(s as real / sectors as real, r as real / rings as real)
  {
    var rows := seq(Count(rings), (i: nat) => SphereRow(i, rings, sectors, num));
    FlattenAt(rows, Count(sectors), r, s);
    assert r * Count(sectors) == r * (sectors + 1);
  }

  /** Cell (r, s) contributes the two triangles (cur, next, cur + 1) and (cur + 1, next, next + 1),
      where cur = r(sectors + 1) + s is its corner on ring r and next = cur + sectors + 1 the one
      below it on ring r + 1. */
  lemma SphereCellAt(rings: int, sectors: int, r: nat, s: nat)
    requires r < rings && s < sectors
    ensures 6 * (r * sectors + s) + 6 <= |SphereIndices(rings, sectors)|
    ensures TriangleAt(SphereIndices(rings, sectors), 2 * (r * sectors + s))
         == [r * (sectors + 1) + s, r * (sectors + 1) + s + sectors + 1, r * (sectors + 1) + s + 1]
    ensures TriangleAt(SphereIndices(rings, sectors), 2 * (r * sectors + s) + 1)
         == [r * (sectors + 1) + s + 1, r * (sectors + 1) + s + sectors + 1, r * (sectors + 1) + s + sectors + 2]
  {
    var idx := SphereIndices(rings, sectors);
    var base := 6 * (r * sectors + s);
    SphereIndexAt(rings, sectors, r, s, 0);
    SphereIndexAt(rings, sectors, r, s, 1);
    SphereIndexAt(rings, sectors, r, s, 2);
    SphereIndexAt(rings, sectors, r, s, 3);
    SphereIndexAt(rings, sectors, r, s, 4);
    SphereIndexAt(rings, sectors, r, s, 5);
    assert TriangleAt(idx, 2 * (r * sectors + s)) == [idx[base], idx[base + 1], idx[base + 2]];
    assert TriangleAt(idx, 2 * (r * sectors + s) + 1) == [idx[base + 3], idx[base + 4], idx[base + 5]];
  }

  lemma SphereIndexAt(rings: int, sectors: int, r: nat, s: nat, j: nat)
    requires r < rings && s < sectors && j < 6
    ensures 6 * (r * sectors + s) + j < |SphereIndices(rings, sectors)|
    ensures SphereIndices(rings, sectors)[6 * (r * sectors + s) + j] == SphereCell(r, s, sectors)[j]
  {
    var rows := seq(Below(rings), (i: nat) => SphereRowIndices(i, sectors));
    forall i | 0 <= i < |rows| ensures |rows[i]| == 6 * sectors {
      SphereRowLength(i, sectors);
    }
    SphereRowIndexAt(r, s, j, sectors);
    FlattenAt(rows, 6 * sectors, r, 6 * s + j);
    CellOffset(r, s, j, sectors);
  }

  lemma CellOffset(r: nat, s: nat, j: nat, sectors: nat)
    ensures r * (6 * sectors) + (6 * s + j) == 6 * (r * sectors + s) + j
  {
  }

  lemma SphereRowLength(r: nat, sectors: int)
    ensures |SphereRowIndices(r, sectors)| == 6 * Below(sectors)
  {
    FlattenLength(seq(Below(sectors), (s: nat) => SphereCell(r, s, Below(sectors))), 6);
  }

  lemma SphereRowIndexAt(r: nat, s: nat, j: nat, sectors: int)
    requires s < sectors && j < 6
    ensures 6 * s + j < |SphereRowIndices(r, sectors)|
    ensures SphereRowIndices(r, sectors)[6 * s + j] == SphereCell(r, s, sectors)[j]
  {
    var cells := seq(Below(sectors), (k: nat) => SphereCell(r, k, Below(sectors)));
    FlattenAt(cells, 6, s, j);
  }

  lemma SphereCellBelow(r: nat, s: nat, rings: nat, sectors: nat)
    requires r < rings && s < sectors
    ensures AllBelow(SphereCell(r, s, sectors), (rings + 1) * (sectors + 1))
  {
    MulMono(r + 1, rings, sectors + 1);
    assert (r + 1) * (sectors + 1) == r * (sectors + 1) + sectors + 1;
    assert (rings + 1) * (sectors + 1) == rings * (sectors + 1) + sectors + 1;
  }

  /** Every index of a sphere addresses one of its vertices. */
  lemma SphereBounds(rings: int, sectors: int, num: Numerics)
    ensures AllBelow(SphereIndices(rings, sectors), |SphereVertices(rings, sectors, num)|)
  {
    SphereCounts(rings, sectors, num);
    if rings > 0 && sectors > 0 {
      var n := (rings + 1) * (sectors + 1);
      var rows := seq(Below(rings), (i: nat) => SphereRowIndices(i, sectors));
      forall i | 0 <= i < |rows| ensures AllBelow(rows[i], n) {
        var cells := seq(sectors, (j: nat) => SphereCell(i, j, sectors));
        forall j | 0 <= j < |cells| ensures AllBelow(cells[j], n) {
          SphereCellBelow(i, j, rings, sectors);
        }
        FlattenAllBelow(cells, n);
      }
      FlattenAllBelow(rows, n);
    } else {
      assert |SphereIndices(rings, sectors)| == 0;
    }
  }

  /** The seam: when cos and sin agree at 0 and 2 * PI, the last sector of every ring repeats
      the position and normal of the first (only the texture coordinate differs). */
  lemma SphereSeam(rings: int, sectors: int, num: Numerics, r: nat)
    requires r <= rings && sectors >= 1
    requires num.cos(2.0 * PI) == num.cos(0.0) && num.sin(2.0 * PI) == num.sin(0.0)
    ensures SphereVertex(r, sectors, rings, sectors, num).position == SphereVertex(r, 0, rings, sectors, num).position
    ensures SphereVertex(r, sectors, rings, sectors, num).normal == SphereVertex(r, 0, rings, sectors, num).normal
  {
    assert Angle(2.0 * PI, sectors, sectors, num) == 2.0 * PI;
    assert Angle(2.0 * PI, 0, sectors, num) == 0.0;
  }

  /** The first ring is the north pole: when sin(0) is 0, all its vertices share one position. */
  lemma SpherePole(rings: int, sectors: int, num: Numerics, s: int)
    requires rings != 0 && num.sin(0.0) == 0.0
    ensures SphereVertex(0, s, rings, sectors, num).position == Vec3(0.0, num.cos(0.0) * 0.5, 0.0)
  {
    assert Angle(PI, 0, rings, num) == 0.0;
  }

  // ---------------------------------------------------------------- cylinder

  /** Centre of a cap at height `y`. */
  function CapCenter(y: real, normal: Vec3): Vertex {
    Vertex(Vec3(0.0, y, 0.0), normal, Vec2(0.5, 0.5))
  }

  /** Rim vertex `i` of a cap at height `y`: radius 0.5, the cap's normal, and the texture
      coordinate of the unit circle mapped into [0,1]². */
  function CapRim(i: int, segments: int, y: real, normal: Vec3, num: Numerics): Vertex {
    var angle := Angle(2.0 * PI, i, segments, num);
    Vertex(Vec3(0.5 * num.cos(angle), y, 0.5 * num.sin(angle)), normal,
           Vec2((num.cos(angle) + 1.0) * 0.5, (num.sin(angle) + 1.0) * 0.5))
  }

  /** Rim vertex `i` of the side surface at height `y`: the horizontal direction as normal
      and texture coordinate (i / segments, v). */
  function SideRim(i: int, segments: int, y: real, v: real, num: Numerics): Vertex {
    var angle := Angle(2.0 * PI, i, segments, num);
    var x := num.cos(angle);
    var z := num.sin(angle);
    Vertex(Vec3(x * 0.5, y, z * 0.5), Vec3(x, 0.0, z), Vec2(Ratio(i, segments, num), v))
  }

  function CapRing(segments: int, y: real, normal: Vec3, num: Numerics): seq<Vertex> {
    seq(Count(segments), (i: nat) => CapRim(i, segments, y, normal, num))
  }

  function SideRing(segments: int, y: real, v: real, num: Numerics): seq<Vertex> {
    seq(Count(segments), (i: nat) => SideRim(i, segments, y, v, num))
  }

  /** Top cap (centre, ring), bottom cap (centre, ring), side top ring, side bottom ring. */
  function CylinderVertices(segments: int, num: Numerics): seq<Vertex> {
    [CapCenter(0.5, PLUS_Y)] + CapRing(segments, 0.5, PLUS_Y, num)
    + [CapCenter(-0.5, MINUS_Y)] + CapRing(segments, -0.5, MINUS_Y, num)
    + SideRing(segments, 0.5, 1.0, num) + SideRing(segments, -0.5, 0.0, num)
  }

  /** Top-cap fan triangle `i`: (centre, ring + i + 1, ring + i). */
  function TopCapTriangle(center: nat, ring: nat, i: nat): seq<nat> {
    [center, ring + i + 1, ring + i]
  }

  /** Bottom-cap fan triangle `i`, wound the other way: (centre, ring + i, ring + i + 1). */
  function BottomCapTriangle(center: nat, ring: nat, i: nat): seq<nat> {
    [center, ring + i, ring + i + 1]
  }

  /** The two side triangles of column `i` between the top and bottom side rings. */
  function SideQuad(top: nat, bottom: nat, i: nat): seq<nat> {
    [top + i, bottom + i, bottom + i + 1, top + i, bottom + i + 1, top + i + 1]
  }

  function TopCapIndices(center: nat, ring: nat, segments: int): seq<nat> {
    Flatten(seq(Below(segments), (i: nat) => TopCapTriangle(center, ring, i)))
  }

  function BottomCapIndices(center: nat, ring: nat, segments: int): seq<nat> {
    Flatten(seq(Below(segments), (i: nat) => BottomCapTriangle(center, ring, i)))
  }

  function SideIndices(top: nat, bottom: nat, segments: int): seq<nat> {
    Flatten(seq(Below(segments), (i: nat) => SideQuad(top, bottom, i)))
  }

  /** With N = segments + 1 ring vertices: the top centre is 0, its ring starts at 1, the
      bottom centre is N + 1, its ring starts at N + 2, the side rings at 2N + 2 and 3N + 2. */
  function CylinderIndices(segments: int): seq<nat> {
    var n := Count(segments);
    TopCapIndices(0, 1, segments) + BottomCapIndices(n + 1, n + 2, segments)
    + SideIndices(2 * n + 2, 3 * n + 2, segments)
  }

  method Cylinder(num: Numerics, segments: int := DEFAULT_CYLINDER_SEGMENTS) returns (vertices: seq<Vertex>, indices: seq<nat>)
    ensures vertices == CylinderVertices(segments, num)
    ensures indices == CylinderIndices(segments)
  {
    vertices, indices := [], [];
    var topCenterIdx := |vertices|;
    vertices := vertices + [Vertex(Vec3(0.0, 0.5, 0.0), Vec3(0.0, 1.0, 0.0), Vec2(0.5, 0.5))];
    var topRingStart := |vertices|;
    vertices := AppendCapRing(vertices, num, segments, 0.5, PLUS_Y);
    indices := AppendTopCap(indices, topCenterIdx, topRingStart, segments);
    var bottomCenterIdx := |vertices|;
    vertices := vertices + [Vertex(Vec3(0.0, -0.5, 0.0), Vec3(0.0, -1.0, 0.0), Vec2(0.5, 0.5))];
    var bottomRingStart := |vertices|;
    vertices := AppendCapRing(vertices, num, segments, -0.5, MINUS_Y);
    indices := AppendBottomCap(indices, bottomCenterIdx, bottomRingStart, segments);
    var sideTopStart := |vertices|;
    vertices := AppendSideRing(vertices, num, segments, 0.5, 1.0);
    var sideBottomStart := |vertices|;
    vertices := AppendSideRing(vertices, num, segments, -0.5, 0.0);
    indices := AppendSide(indices, sideTopStart, sideBottomStart, segments);
  }

  /** A cap ring loop of `Cylinder`. */
  method AppendCapRing(acc: seq<Vertex>, num: Numerics, segments: int, y: real, normal: Vec3) returns (vertices: seq<Vertex>)
    ensures vertices == acc + CapRing(segments, y, normal, num)
  {
    vertices := acc;
    var i := 0;
    while i <= segments
      invariant 0 <= i <= Count(segments)
      invariant vertices == acc + seq(i, (k: nat) => CapRim(k, segments, y, normal, num))
    {
      var angle := Angle(2.0 * PI, i, segments, num);
      var x := 0.5 * num.cos(angle);
      var z := 0.5 * num.sin(angle);
      var rim := Vertex(Vec3(x, y, z), normal, Vec2((num.cos(angle) + 1.0) * 0.5, (num.sin(angle) + 1.0) * 0.5));
      assert rim == CapRim(i, segments, y, normal, num);
      assert seq(i, (k: nat) => CapRim(k, segments, y, normal, num)) + [rim]
          == seq(i + 1, (k: nat) => CapRim(k, segments, y, normal, num));
      vertices := vertices + [rim];
      i := i + 1;
    }
  }

  /** A side ring loop of `Cylinder`. */
  method AppendSideRing(acc: seq<Vertex>, num: Numerics, segments: int, y: real, v: real) returns (vertices: seq<Vertex>)
    ensures vertices == acc + SideRing(segments, y, v, num)
  {
    vertices := acc;
    var i := 0;
    while i <= segments
      invariant 0 <= i <= Count(segments)
      invariant vertices == acc + seq(i, (k: nat) => SideRim(k, segments, y, v, num))
    {
      var angle := Angle(2.0 * PI, i, segments, num);
      var x := num.cos(angle);
      var z := num.sin(angle);
      var rim := Vertex(Vec3(x * 0.5, y, z * 0.5), Vec3(x, 0.0, z), Vec2(Ratio(i, segments, num), v));
      assert rim == SideRim(i, segments, y, v, num);
      assert seq(i, (k: nat) => SideRim(k, segments, y, v, num)) + [rim]
          == seq(i + 1, (k: nat) => SideRim(k, segments, y, v, num));
      vertices := vertices + [rim];
      i := i + 1;
    }
  }

  /** The top-cap triangle loop of `Cylinder`. */
  method AppendTopCap(acc: seq<nat>, center: nat, ring: nat, segments: int) returns (indices: seq<nat>)
    ensures indices == acc + TopCapIndices(center, ring, segments)
  {
    indices := acc;
    var i := 0;
    while i < segments
      invariant 0 <= i <= Below(segments)
      invariant indices == acc + Flatten(seq(i, (k: nat) => TopCapTriangle(center, ring, k)))
    {
      TopCapStep(center, ring, i, seq(i, (k: nat) => TopCapTriangle(center, ring, k)));
      indices := indices + [center, ring + i + 1, ring + i];
      i := i + 1;
    }
  }

  /** The bottom-cap triangle loop of `Cylinder`. */
  method AppendBottomCap(acc: seq<nat>, center: nat, ring: nat, segments: int) returns (indices: seq<nat>)
    ensures indices == acc + BottomCapIndices(center, ring, segments)
  {
    indices := acc;
    var i := 0;
    while i < segments
      invariant 0 <= i <= Below(segments)
      invariant indices == acc + Flatten(seq(i, (k: nat) => BottomCapTriangle(center, ring, k)))
    {
      BottomCapStep(center, ring, i, seq(i, (k: nat) => BottomCapTriangle(center, ring, k)));
      indices := indices + [center, ring + i, ring + i + 1];
      i := i + 1;
    }
  }

  /** The side triangle loop of `Cylinder`. */
  method AppendSide(acc: seq<nat>, top: nat, bottom: nat, segments: int) returns (indices: seq<nat>)
    ensures indices == acc + SideIndices(top, bottom, segments)
  {
    indices := acc;
    var i := 0;
    while i < segments
      invariant 0 <= i <= Below(segments)
      invariant indices == acc + Flatten(seq(i, (k: nat) => SideQuad(top, bottom, k)))
    {
      SideStep(top, bottom, i, seq(i, (k: nat) => SideQuad(top, bottom, k)));
      var top0, top1 := top + i, top + i + 1;
      var bot0, bot1 := bottom + i, bottom + i + 1;
      indices := indices + [top0, bot0, bot1, top0, bot1, top1];
      i := i + 1;
    }
  }

  lemma TopCapStep(center: nat, ring: nat, i: nat, done: seq<seq<nat>>)
    requires done == seq(i, (k: nat) => TopCapTriangle(center, ring, k))
    ensures Flatten(seq(i + 1, (k: nat) => TopCapTriangle(center, ring, k))) == Flatten(done) + TopCapTriangle(center, ring, i)
  {
    var next := seq(i + 1, (k: nat) => TopCapTriangle(center, ring, k));
    assert next[..i] == done;
  }

  lemma BottomCapStep(center: nat, ring: nat, i: nat, done: seq<seq<nat>>)
    requires done == seq(i, (k: nat) => BottomCapTriangle(center, ring, k))
    ensures Flatten(seq(i + 1, (k: nat) => BottomCapTriangle(center, ring, k))) == Flatten(done) + BottomCapTriangle(center, ring, i)
  {
    var next := seq(i + 1, (k: nat) => BottomCapTriangle(center, ring, k));
    assert next[..i] == done;
  }

  lemma SideStep(top: nat, bottom: nat, i: nat, done: seq<seq<nat>>)
    requires done == seq(i, (k: nat) => SideQuad(top, bottom, k))
    ensures Flatten(seq(i + 1, (k: nat) => SideQuad(top, bottom, k)))
         == Flatten(done) + SideQuad(top, bottom, i)
  {
    var next := seq(i + 1, (k: nat) => SideQuad(top, bottom, k));
    assert next[..i] == done;
  }

  lemma CylinderPieceLengths(segments: int)
    ensures |TopCapIndices(0, 1, segments)| == 3 * Below(segments)
    ensures |BottomCapIndices(Count(segments) + 1, Count(segments) + 2, segments)| == 3 * Below(segments)
    ensures |SideIndices(2 * Count(segments) + 2, 3 * Count(segments) + 2, segments)| == 6 * Below(segments)
  {
    var n := Count(segments);
    FlattenLength(seq(Below(segments), (i: nat) => TopCapTriangle(0, 1, i)), 3);
    FlattenLength(seq(Below(segments), (i: nat) => BottomCapTriangle(n + 1, n + 2, i)), 3);
    FlattenLength(seq(Below(segments), (i: nat) => SideQuad(2 * n + 2, 3 * n + 2, i)), 6);
  }

  /** A cylinder has 4 * segments + 6 vertices and 12 * segments indices. */
  lemma CylinderCounts(segments: int, num: Numerics)
    ensures |CylinderVertices(segments, num)| == 4 * Count(segments) + 2
    ensures |CylinderIndices(segments)| == 12 * Below(segments)
    ensures segments >= 0 ==> |CylinderVertices(segments, num)| == 4 * segments + 6
  {
    CylinderPieceLengths(segments);
  }

  lemma TopCapAt(center: nat, ring: nat, segments: int, t: nat)
    requires t < segments
    ensures |TopCapIndices(center, ring, segments)| == 3 * Below(segments)
    ensures TriangleAt(TopCapIndices(center, ring, segments), t) == [center, ring + t + 1, ring + t]
  {
    TriangleOfFlatten(seq(Below(segments), (i: nat) => TopCapTriangle(center, ring, i)), t);
  }

  lemma BottomCapAt(center: nat, ring: nat, segments: int, t: nat)
    requires t < segments
    ensures |BottomCapIndices(center, ring, segments)| == 3 * Below(segments)
    ensures TriangleAt(BottomCapIndices(center, ring, segments), t) == [center, ring + t, ring + t + 1]
  {
    TriangleOfFlatten(seq(Below(segments), (i: nat) => BottomCapTriangle(center, ring, i)), t);
  }

  lemma SideAt(top: nat, bottom: nat, segments: int, t: nat)
    requires t < segments
    ensures |SideIndices(top, bottom, segments)| == 6 * Below(segments)
    ensures TriangleAt(SideIndices(top, bottom, segments), 2 * t) == [top + t, bottom + t, bottom + t + 1]
    ensures TriangleAt(SideIndices(top, bottom, segments), 2 * t + 1) == [top + t, bottom + t + 1, top + t + 1]
  {
    var side := SideIndices(top, bottom, segments);
    SideIndexAt(top, bottom, segments, t, 0); SideIndexAt(top, bottom, segments, t, 1);
    SideIndexAt(top, bottom, segments, t, 2); SideIndexAt(top, bottom, segments, t, 3);
    SideIndexAt(top, bottom, segments, t, 4); SideIndexAt(top, bottom, segments, t, 5);
    assert TriangleAt(side, 2 * t) == [side[6 * t], side[6 * t + 1], side[6 * t + 2]];
    assert TriangleAt(side, 2 * t + 1) == [side[6 * t + 3], side[6 * t + 4], side[6 * t + 5]];
  }

  lemma SideIndexAt(top: nat, bottom: nat, segments: int, t: nat, j: nat)
    requires t < segments && j < 6
    ensures |SideIndices(top, bottom, segments)| == 6 * Below(segments)
    ensures SideIndices(top, bottom, segments)[6 * t + j] == SideQuad(top, bottom, t)[j]
  {
    var quads := seq(Below(segments), (i: nat) => SideQuad(top, bottom, i));
    FlattenLength(quads, 6);
    FlattenAt(quads, 6, t, j);
  }

  /** Cap triangle `t` of the top cap is (0, t + 2, t + 1): centre, then the ring going
      clockwise seen from above; the bottom cap's triangle `t` is (N + 1, N + 2 + t, N + 3 + t),
      the opposite order, where N = segments + 1 is the size of a ring. */
  lemma CylinderCaps(segments: int, t: nat)
    requires t < segments
    ensures 3 * (Below(segments) + t) + 3 <= |CylinderIndices(segments)|
    ensures TriangleAt(CylinderIndices(segments), t) == [0, t + 2, t + 1]
    ensures TriangleAt(CylinderIndices(segments), Below(segments) + t)
         == [Count(segments) + 1, Count(segments) + 2 + t, Count(segments) + 3 + t]
  {
    var n := Count(segments);
    var top := TopCapIndices(0, 1, segments);
    var bottom := BottomCapIndices(n + 1, n + 2, segments);
    var side := SideIndices(2 * n + 2, 3 * n + 2, segments);
    CylinderPieceLengths(segments);
    TopCapAt(0, 1, segments, t);
    BottomCapAt(n + 1, n + 2, segments, t);
    ConcatTriangles(top, bottom, side, Below(segments), t);
  }

  lemma ConcatTriangles(a: seq<nat>, b: seq<nat>, c: seq<nat>, m: nat, t: nat)
    requires |a| == 3 * m && |b| == 3 * m && t < m
    ensures 3 * (m + t) + 3 <= |a + b + c|
    ensures TriangleAt(a + b + c, t) == TriangleAt(a, t)
    ensures TriangleAt(a + b + c, m + t) == TriangleAt(b, t)
  {
    TriangleAtConcat(a, b, m, t);
    TriangleAtConcat(a + b, c, 2 * m, t);
    TriangleAtConcat(a + b, c, 2 * m, m + t);
  }

  /** Side column `t` is the pair (top + t, bottom + t, bottom + t + 1) and
      (top + t, bottom + t + 1, top + t + 1), over the side rings starting at
      top = 2N + 2 and bottom = 3N + 2. */
  lemma CylinderSide(segments: int, t: nat)
    requires t < segments
    ensures 6 * (Below(segments) + t) + 6 <= |CylinderIndices(segments)|
    ensures TriangleAt(CylinderIndices(segments), 2 * Below(segments) + 2 * t)
         == [2 * Count(segments) + 2 + t, 3 * Count(segments) + 2 + t, 3 * Count(segments) + 3 + t]
    ensures TriangleAt(CylinderIndices(segments), 2 * Below(segments) + 2 * t + 1)
         == [2 * Count(segments) + 2 + t, 3 * Count(segments) + 3 + t, 2 * Count(segments) + 3 + t]
  {
    var n := Count(segments);
    var caps := TopCapIndices(0, 1, segments) + BottomCapIndices(n + 1, n + 2, segments);
    CylinderPieceLengths(segments);
    SideBehind(caps, 2 * n + 2, 3 * n + 2, segments, 2 * Below(segments), t);
  }

  lemma SideBehind(caps: seq<nat>, top: nat, bottom: nat, segments: int, m: nat, t: nat)
    requires |caps| == 3 * m && t < segments
    ensures 3 * (m + 2 * t + 1) + 3 <= |caps + SideIndices(top, bottom, segments)|
    ensures TriangleAt(caps + SideIndices(top, bottom, segments), m + 2 * t) == [top + t, bottom + t, bottom + t + 1]
    ensures TriangleAt(caps + SideIndices(top, bottom, segments), m + 2 * t + 1) == [top + t, bottom + t + 1, top + t + 1]
  {
    var side := SideIndices(top, bottom, segments);
    SideAt(top, bottom, segments, t);
    TriangleAtConcat(caps, side, m, 2 * t);
    TriangleAtConcat(caps, side, m, 2 * t + 1);
  }

  lemma CylinderPiecesBelow(segments: int)
    ensures AllBelow(TopCapIndices(0, 1, segments), 4 * Count(segments) + 2)
    ensures AllBelow(BottomCapIndices(Count(segments) + 1, Count(segments) + 2, segments), 4 * Count(segments) + 2)
    ensures AllBelow(SideIndices(2 * Count(segments) + 2, 3 * Count(segments) + 2, segments), 4 * Count(segments) + 2)
  {
    var n := Count(segments);
    var m := 4 * n + 2;
    var top := seq(Below(segments), (i: nat) => TopCapTriangle(0, 1, i));
    var bottom := seq(Below(segments), (i: nat) => BottomCapTriangle(n + 1, n + 2, i));
    var quads := seq(Below(segments), (i: nat) => SideQuad(2 * n + 2, 3 * n + 2, i));
    assert forall i :: 0 <= i < |top| ==> AllBelow(top[i], m);
    assert forall i :: 0 <= i < |bottom| ==> AllBelow(bottom[i], m);
    assert forall i :: 0 <= i < |quads| ==> AllBelow(quads[i], m);
    FlattenAllBelow(top, m);
    FlattenAllBelow(bottom, m);
    FlattenAllBelow(quads, m);
  }

  /** Every index of a cylinder addresses one of its vertices. */
  lemma CylinderBounds(segments: int, num: Numerics)
    ensures AllBelow(CylinderIndices(segments), |CylinderVertices(segments, num)|)
  {
    CylinderCounts(segments, num);
    CylinderPiecesBelow(segments);
  }

  /** The top cap (centre and ring) lies at height 0.5 with normal +Y, the bottom cap at
      height -0.5 with normal -Y; the side rings lie at heights 0.5 and -0.5 with horizontal
      normals and texture rows 1 and 0. */
  lemma CylinderLayout(segments: int, num: Numerics)
    ensures var vs, n := CylinderVertices(segments, num), Count(segments);
      && |vs| == 4 * n + 2
      && (forall k :: 0 <= k < n + 1 ==> vs[k].normal == PLUS_Y && vs[k].position.y == 0.5)
      && (forall k :: n + 1 <= k < 2 * n + 2 ==> vs[k].normal == MINUS_Y && vs[k].position.y == -0.5)
      && (forall k :: 2 * n + 2 <= k < 3 * n + 2 ==> vs[k].normal.y == 0.0 && vs[k].position.y == 0.5 && vs[k].uv.y == 1.0)
      && (forall k :: 3 * n + 2 <= k < 4 * n + 2 ==> vs[k].normal.y == 0.0 && vs[k].position.y == -0.5 && vs[k].uv.y == 0.0)
      && vs[0].position == Vec3(0.0, 0.5, 0.0) && vs[n + 1].position == Vec3(0.0, -0.5, 0.0)
  {
  }

  /** If cos and sin agree at 0 and 2 * PI, the last vertex of each ring repeats the first:
      the same position and normal (and, on the caps, the same texture coordinate). On the
      side rings the two seam vertices differ only in the texture coordinate u, which runs
      from 0 at the first to 1 at the last. */
  lemma CylinderSeam(segments: int, num: Numerics)
    requires segments >= 1
    requires num.cos(2.0 * PI) == num.cos(0.0) && num.sin(2.0 * PI) == num.sin(0.0)
    ensures CapRim(segments, segments, 0.5, PLUS_Y, num) == CapRim(0, segments, 0.5, PLUS_Y, num)
    ensures CapRim(segments, segments, -0.5, MINUS_Y, num) == CapRim(0, segments, -0.5, MINUS_Y, num)
    ensures SideRim(segments, segments, 0.5, 1.0, num).position == SideRim(0, segments, 0.5, 1.0, num).position
    ensures SideRim(segments, segments, 0.5, 1.0, num).normal == SideRim(0, segments, 0.5, 1.0, num).normal
    ensures SideRim(segments, segments, -0.5, 0.0, num).position == SideRim(0, segments, -0.5, 0.0, num).position
    ensures SideRim(segments, segments, -0.5, 0.0, num).normal == SideRim(0, segments, -0.5, 0.0, num).normal
    ensures SideRim(segments, segments, 0.5, 1.0, num).uv == Vec2(1.0, 1.0) && SideRim(0, segments, 0.5, 1.0, num).uv == Vec2(0.0, 1.0)
    ensures SideRim(segments, segments, -0.5, 0.0, num).uv == Vec2(1.0, 0.0) && SideRim(0, segments, -0.5, 0.0, num).uv == Vec2(0.0, 0.0)
  {
    assert Angle(2.0 * PI, segments, segments, num) == 2.0 * PI;
    assert Angle(2.0 * PI, 0, segments, num) == 0.0;
    var d := segments as real;
    assert d > 0.0 && d / d == 1.0 && 0.0 / d == 0.0;
    assert Ratio(segments, segments, num) == 1.0 && Ratio(0, segments, num) == 0.0;
    var x1, z1 := num.cos(2.0 * PI), num.sin(2.0 * PI);
    var x0, z0 := num.cos(0.0), num.sin(0.0);
    assert SideRim(segments, segments, 0.5, 1.0, num) == Vertex(Vec3(x1 * 0.5, 0.5, z1 * 0.5), Vec3(x1, 0.0, z1), Vec2(1.0, 1.0));
    assert SideRim(0, segments, 0.5, 1.0, num) == Vertex(Vec3(x0 * 0.5, 0.5, z0 * 0.5), Vec3(x0, 0.0, z0), Vec2(0.0, 1.0));
    assert SideRim(segments, segments, -0.5, 0.0, num) == Vertex(Vec3(x1 * 0.5, -0.5, z1 * 0.5), Vec3(x1, 0.0, z1), Vec2(1.0, 0.0));
    assert SideRim(0, segments, -0.5, 0.0, num) == Vertex(Vec3(x0 * 0.5, -0.5, z0 * 0.5), Vec3(x0, 0.0, z0), Vec2(0.0, 0.0));
  }

  /** The defaults of Mesh.h give 34 circle vertices and 96 indices, 561 sphere vertices
      and 3072 indices, and 134 cylinder vertices and 384 indices. */
  lemma DefaultSizes(num: Numerics)
    ensures |CircleVertices(DEFAULT_CIRCLE_SEGMENTS, num)| == 34 && |CircleIndices(DEFAULT_CIRCLE_SEGMENTS)| == 96
    ensures |SphereVertices(DEFAULT_SPHERE_RINGS, DEFAULT_SPHERE_SECTORS, num)| == 561
    ensures |SphereIndices(DEFAULT_SPHERE_RINGS, DEFAULT_SPHERE_SECTORS)| == 3072
    ensures |CylinderVertices(DEFAULT_CYLINDER_SEGMENTS, num)| == 134 && |CylinderIndices(DEFAULT_CYLINDER_SEGMENTS)| == 384
  {
    CircleShape(DEFAULT_CIRCLE_SEGMENTS, num);
    SphereCounts(DEFAULT_SPHERE_RINGS, DEFAULT_SPHERE_SECTORS, num);
    CylinderCounts(DEFAULT_CYLINDER_SEGMENTS, num);
  }
}
