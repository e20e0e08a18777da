/** Value types shared by the generators, the GPU mesh and the OBJ importer:
    vectors, the interleaved vertex record, opaque floating-point operations,
    and sequence helpers used to describe index buffers. */
module Geometry {

  datatype Option<T> = None | Some(value: T)

  datatype Vec2 = Vec2(x: real, y: real)
  datatype Vec3 = Vec3(x: real, y: real, z: real)

  /** One interleaved vertex, in buffer layout order: position, normal, texture coordinate. */
  datatype Vertex = Vertex(position: Vec3, normal: Vec3, uv: Vec2)

  /** The single-precision operations the generators call but that are not modelled:
      `cos`, `sin`, `glm::normalize`, and `nan`, the value that stands for the IEEE
      result of the division 0/0 (a resolution of zero). */
  datatype Numerics = Numerics(cos: real -> real, sin: real -> real, normalize: Vec3 -> Vec3, nan: real)

  /** The PI constant of the generators. */
  const PI: real := 3.14159265359

  function Scale(v: Vec3, k: real): Vec3 {
    Vec3(v.x * k, v.y * k, v.z * k)
  }

  function Sub(a: Vec3, b: Vec3): Vec3 {
    Vec3(a.x - b.x, a.y - b.y, a.z - b.z)
  }

  function Cross(a: Vec3, b: Vec3): Vec3 {
    Vec3(a.y * b.z - a.z * b.y, a.z * b.x - a.x * b.z, a.x * b.y - a.y * b.x)
  }

  function Dot(a: Vec3, b: Vec3): real {
    a.x * b.x + a.y * b.y + a.z * b.z
  }

  /** `(float)k / n`, with the 0/0 case (the only division by zero the generators reach) opaque. */
  function Ratio(k: int, n: int, num: Numerics): real {
    if n == 0 then num.nan else k as real / n as real
  }

  /** `scale * k / n` evaluated left to right, as in `2.0f * PI * i / segments`: when `n` is
      zero the only step the loops reach is `k == 0`, and 0/0 is the opaque `nan`. */
  function Angle(scale: real, k: int, n: int, num: Numerics): real {
    if n == 0 then num.nan else scale * k as real / n as real
  }

  /** Number of iterations of `for (int i = 0; i <= n; ++i)`. */
  function Count(n: int): nat {
    if n >= 0 then n + 1 else 0
  }

  /** Number of iterations of `for (int i = 0; i < n; ++i)`. */
  function Below(n: int): nat {
    if n > 0 then n else 0
  }

  /** Concatenation of a sequence of sequences, in order. */
  function Flatten<T>(xss: seq<seq<T>>): seq<T> {
    if xss == [] then [] else Flatten(xss[..|xss| - 1]) + xss[|xss| - 1]
  }

  /** Every entry of an index buffer addresses one of `n` vertices. */
  predicate AllBelow(s: seq<nat>, n: int) {
    forall k :: 0 <= k < |s| ==> s[k] < n
  }

  /** Triangle `t` of an index buffer: its three consecutive entries. */
  function TriangleAt(idx: seq<nat>, t: nat): seq<nat>
    requires 3 * t + 3 <= |idx|
  {
    idx[3 * t .. 3 * t + 3]
  }

  /** Triangle `t` of `idx` winds counter-clockwise when seen from the side its first
      corner's normal points to: its winding normal has a positive component along it. */
  predicate WindsTowardNormal(vs: seq<Vertex>, idx: seq<nat>, t: nat)
    requires AllBelow(idx, |vs|) && 3 * t + 3 <= |idx|
  {
    var a, b, c := vs[idx[3 * t]].position, vs[idx[3 * t + 1]].position, vs[idx[3 * t + 2]].position;
    Dot(Cross(Sub(b, a), Sub(c, a)), vs[idx[3 * t]].normal) > 0.0
  }

  /** Every triangle of `idx` winds toward its normal. */
  predicate FrontFacing(vs: seq<Vertex>, idx: seq<nat>)
    requires AllBelow(idx, |vs|)
  {
    forall t :: 0 <= t < |idx| / 3 ==> WindsTowardNormal(vs, idx, t)
  }

  /** Reduces the winding test of one triangle to its three corner positions. */
  lemma WindingOf(vs: seq<Vertex>, idx: seq<nat>, t: nat, a: Vec3, b: Vec3, c: Vec3, n: Vec3)
    requires AllBelow(idx, |vs|) && 3 * t + 3 <= |idx|
    requires vs[idx[3 * t]].position == a && vs[idx[3 * t + 1]].position == b && vs[idx[3 * t + 2]].position == c
    requires vs[idx[3 * t]].normal == n
    requires Dot(Cross(Sub(b, a), Sub(c, a)), n) > 0.0
    ensures WindsTowardNormal(vs, idx, t)
  {
  }

  lemma FlattenSnoc<T>(xss: seq<seq<T>>, x: seq<T>)
    ensures Flatten(xss + [x]) == Flatten(xss) + x
  {
    assert (xss + [x])[..|xss|] == xss;
  }

  lemma {:induction false} FlattenAllBelow(xss: seq<seq<nat>>, n: int)
    requires forall i :: 0 <= i < |xss| ==> AllBelow(xss[i], n)
    ensures AllBelow(Flatten(xss), n)
  {
    if xss != [] {
      FlattenAllBelow(xss[..|xss| - 1], n);
    }
  }

  lemma MulStep(i: nat, w: nat, j: nat, n: nat)
    requires i < n && j < w
    ensures i * w + j < n * w
    ensures (i + 1) * w <= n * w
  {
    assert (i + 1) * w == i * w + w;
    assert i + 1 <= n;
    MulMono(i + 1, n, w);
  }

  lemma MulMono(a: nat, b: nat, w: nat)
    requires a <= b
    ensures a * w <= b * w
  {
    assert b * w == a * w + (b - a) * w;
  }

  /** Flattening rows of one width `w` gives `|xss| * w` entries. */
  lemma {:induction false} FlattenLength<T>(xss: seq<seq<T>>, w: nat)
    requires forall i :: 0 <= i < |xss| ==> |xss[i]| == w
    ensures |Flatten(xss)| == |xss| * w
  {
    if xss != [] {
      FlattenLength(xss[..|xss| - 1], w);
      assert |Flatten(xss)| == (|xss| - 1) * w + w;
    }
  }

  /** Flattening rows of one width `w` lays row `i` out at offset `i * w`. */
  lemma {:induction false} FlattenAt<T>(xss: seq<seq<T>>, w: nat, i: nat, j: nat)
    requires forall r :: 0 <= r < |xss| ==> |xss[r]| == w
    requires i < |xss| && j < w
    ensures i * w + j < |Flatten(xss)|
    ensures Flatten(xss)[i * w + j] == xss[i][j]
  {
    var n := |xss| - 1;
    var pre := xss[..n];
    FlattenLength(pre, w);
    FlattenLength(xss, w);
    MulStep(i, w, j, |xss|);
    if i < n {
      FlattenAt(pre, w, i, j);
      MulStep(i, w, j, n);
      assert Flatten(xss) == Flatten(pre) + xss[n];
      assert pre[i] == xss[i];
    } else {
      assert Flatten(xss) == Flatten(pre) + xss[n];
      assert |Flatten(pre)| == i * w;
    }
  }

  /** Flattening triangles lays triangle `t` out as the `t`-th triple. */
  lemma TriangleOfFlatten(rows: seq<seq<nat>>, t: nat)
    requires forall r :: 0 <= r < |rows| ==> |rows[r]| == 3
    requires t < |rows|
    ensures |Flatten(rows)| == 3 * |rows|
    ensures TriangleAt(Flatten(rows), t) == rows[t]
  {
    var f, b := Flatten(rows), 3 * t;
    FlattenLength(rows, 3);
    FlattenAt(rows, 3, t, 0);
    FlattenAt(rows, 3, t, 1);
    FlattenAt(rows, 3, t, 2);
    assert t * 3 == b;
    assert f[b] == rows[t][0] && f[b + 1] == rows[t][1] && f[b + 2] == rows[t][2];
    assert f[b .. b + 3] == [f[b], f[b + 1], f[b + 2]];
    assert rows[t] == [rows[t][0], rows[t][1], rows[t][2]];
  }

  /** Triangles of a buffer keep their place at the front of a longer one and move by
      `m` behind a buffer `a` of `m` whole triangles. */
  lemma TriangleAtConcat(a: seq<nat>, b: seq<nat>, m: nat, t: nat)
    requires |a| == 3 * m
    ensures 3 * t + 3 <= |a| ==> TriangleAt(a + b, t) == TriangleAt(a, t)
    ensures 3 * t + 3 <= |b| ==> TriangleAt(a + b, m + t) == TriangleAt(b, t)
  {
    if 3 * t + 3 <= |a| {
      assert (a + b)[3 * t .. 3 * t + 3] == a[3 * t .. 3 * t + 3];
    }
    if 3 * t + 3 <= |b| {
      assert (a + b)[3 * (m + t) .. 3 * (m + t) + 3] == b[3 * t .. 3 * t + 3];
    }
  }
}
