/** The container every stamp generator fills: fixed-size vertex and index arrays plus the
    counts that say how much of them is live. */
module Mesh {
  import opened Consts
  import opened Geometry

  type u32 = x: int | 0 <= x < 0x1_0000_0000

  datatype Mesh2d = Mesh2d(
    name: string,  // the source calls it `label`, a Dafny keyword
    vertices: seq<Vec2>,
    indices: seq<u32>,
    vertexCount: nat,
    indexCount: nat,
    instanceCount: nat)

  /** The stamp invariant: arrays of the shared capacity, a live prefix of whole triangles,
      and every live index naming a live vertex. */
  predicate WellFormed(m: Mesh2d) {
    && |m.vertices| == V_MAX && |m.indices| == I_MAX
    && m.vertexCount <= V_MAX && m.indexCount <= I_MAX && m.indexCount % 3 == 0
    && forall k :: 0 <= k < m.indexCount ==> m.indices[k] < m.vertexCount
  }

  /** Corner j of live triangle t. */
  function Corner(m: Mesh2d, t: int, j: int): Vec2
    requires WellFormed(m) && 0 <= t < m.indexCount / 3 && 0 <= j < 3
  {
    m.vertices[m.indices[3 * t + j]]
  }

  function TriangleArea2(m: Mesh2d, t: int): real
    requires WellFormed(m) && 0 <= t < m.indexCount / 3
  {
    SignedArea2(Corner(m, t, 0), Corner(m, t, 1), Corner(m, t, 2))
  }

  /** Every live triangle is half a unit cell, wound counter-clockwise. */
  predicate UnitCounterClockwise(m: Mesh2d)
    requires WellFormed(m)
  {
    forall t :: 0 <= t < m.indexCount / 3 ==> TriangleArea2(m, t) == 1.0
  }

  /** Every live triangle has collinear corners (it only gains area once heights differ). */
  predicate Flat(m: Mesh2d)
    requires WellFormed(m)
  {
    forall t :: 0 <= t < m.indexCount / 3 ==> TriangleArea2(m, t) == 0.0
  }

  /** `a[at..at + |src|].copy_from_slice(src)`. */
  method CopyFromSlice<T>(a: array<T>, at: nat, src: seq<T>)
    requires at + |src| <= a.Length
    modifies a
    ensures forall k :: 0 <= k < a.Length ==> a[k] == if at <= k < at + |src| then src[k - at] else old(a[k])
  {
    for j := 0 to |src|
      invariant forall k :: 0 <= k < a.Length ==> a[k] == if at <= k < at + j then src[k - at] else old(a[k])
    {
      a[at + j] := src[j];
    }
  }

  lemma ZeroMultiple(a: int, d: int)
    requires d > 0 && -d < a * d < d
    ensures a == 0
  {
  }

  /** Euclidean division is determined by quotient and remainder. */
  lemma DivModUnique(n: int, d: int, q: int, r: int)
    requires d > 0 && 0 <= r < d && n == q * d + r
    ensures n / d == q && n % d == r
  {
    var q', r' := n / d, n % d;
    assert (q' - q) * d == r - r';
    ZeroMultiple(q' - q, d);
  }
}
