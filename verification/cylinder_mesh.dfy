/** The open cylinder (or cone frustum) mesh used for the engine nacelle and
    nozzle: a front ring of n vertices at z0, a rear ring of n vertices at z1,
    and two triangles per segment joining them. */
module Meshes {
  import opened UnityMath

  /** cos and sin of the ring angle i * 2 * PI / n, supplied from outside. */
  datatype UnitPoint = UnitPoint(cos: real, sin: real)

  /** An entry of the normal array: the zero vector a fresh array holds, or
      Unity's `Vector3.normalized` of a vertex, kept symbolically. */
  datatype Normal = ZeroNormal | Normalized(of: Vec3)

  /** A triangle of the index buffer, corners in winding order. */
  datatype Triangle = Triangle(a: nat, b: nat, c: nat)
  {
    function Corner(k: nat): (r: nat)
      requires k < 3
    {
      if k == 0 then a else if k == 1 then b else c
    }
  }

  // ---------------------------------------------------------------------
  // Specification of the layout

  /** The ring neighbour of vertex i, wrapping from n - 1 back to 0, written
      as the source's conditional. */
  function Next(n: nat, i: nat): (j: nat)
    requires i < n
    ensures j < n
  {
    if i < n - 1 then i + 1 else 0
  }

  /** Triangle number t of the index buffer: triangles 0..n-1 are the front
      triangles of segments 0..n-1, triangles n..2n-1 the rear ones. */
  function TriangleAt(n: nat, t: nat): (tri: Triangle)
    requires t < 2 * n
    ensures tri.a == t && tri.b < 2 * n && tri.c < n
  {
    if t < n then Triangle(t, t + n, Next(n, t))
    else Triangle(t, n + Next(n, t - n), Next(n, t - n))
  }

  /** The index the buffer holds in slot k. */
  function SlotValue(n: nat, k: nat): (r: nat)
    requires k < 6 * n
    ensures r < 2 * n
  {
    TriangleAt(n, k / 3).Corner(k % 3)
  }

  /** A point of a ring of diameter d at depth z. */
  function RimPoint(p: UnitPoint, d: real, z: real): (v: Vec3) {
    Vec3(d / 2.0 * p.cos, d / 2.0 * p.sin, z)
  }

  /** The vertex array for a front ring (diameter d0, depth z0) and a rear
      ring (diameter d1, depth z1) over the angles of `ring`. */
  function RingVertices(ring: seq<UnitPoint>, d0: real, d1: real, z0: real, z1: real): (vs: seq<Vec3>)
    ensures |vs| == 2 * |ring|
  {
    var n := |ring|;
    seq(2 * n, k requires 0 <= k < 2 * n =>
      if k < n then RimPoint(ring[k], d0, z0) else RimPoint(ring[k - n], d1, z1))
  }

  /** Normals as the constructor writes them: slot i and slot i + n both hold
      the normalised FRONT vertex i. */
  function RingNormals(ring: seq<UnitPoint>, d0: real, z0: real): (ns: seq<Normal>)
    ensures |ns| == 2 * |ring|
  {
    var n := |ring|;
    seq(2 * n, k requires 0 <= k < 2 * n =>
      if k < n then Normalized(RimPoint(ring[k], d0, z0)) else Normalized(RimPoint(ring[k - n], d0, z0)))
  }

  /** The whole index buffer. */
  function TriangleLayout(n: nat): (ts: seq<int>)
    ensures |ts| == 6 * n
  {
    seq(6 * n, k requires 0 <= k < 6 * n => SlotValue(n, k))
  }

  /** Front-ring vertices sit at depth z0 and rear-ring vertices at depth z1,
      each on the ray of its ring angle scaled by half the ring's diameter. */
  lemma RingVerticesLayout(ring: seq<UnitPoint>, d0: real, d1: real, z0: real, z1: real, i: nat)
    requires i < |ring|
    ensures var vs := RingVertices(ring, d0, d1, z0, z1);
      vs[i] == Vec3(d0 / 2.0 * ring[i].cos, d0 / 2.0 * ring[i].sin, z0) &&
      vs[i + |ring|] == Vec3(d1 / 2.0 * ring[i].cos, d1 / 2.0 * ring[i].sin, z1)
  {
    var vs := RingVertices(ring, d0, d1, z0, z1);
    assert vs[i] == RimPoint(ring[i], d0, z0);
    assert vs[i + |ring|] == RimPoint(ring[i + |ring| - |ring|], d1, z1);
  }

  /** Both normals of angle i are the normalised front vertex i. */
  lemma RingNormalsLayout(ring: seq<UnitPoint>, d0: real, d1: real, z0: real, z1: real, i: nat)
    requires i < |ring|
    ensures RingNormals(ring, d0, z0)[i] == RingNormals(ring, d0, z0)[i + |ring|]
              == Normalized(RingVertices(ring, d0, d1, z0, z1)[i])
  {
  }

  // ---------------------------------------------------------------------
  // The state of the buffers after the first i iterations of the
  // constructor's loop; C# arrays start out zero-filled.

  /** Whether iteration i of the loop has written triangle t. */
  predicate Written(n: nat, i: nat, t: nat) {
    t < i || n <= t < n + i
  }

  function TrianglesAfter(n: nat, i: nat): (ts: seq<int>)
    ensures |ts| == 6 * n
  {
    seq(6 * n, k requires 0 <= k < 6 * n => if Written(n, i, k / 3) then SlotValue(n, k) else 0)
  }

  function VerticesAfter(ring: seq<UnitPoint>, d0: real, d1: real, z0: real, z1: real, i: nat): (vs: seq<Vec3>)
    ensures |vs| == 2 * |ring|
  {
    var n := |ring|;
    seq(2 * n, k requires 0 <= k < 2 * n =>
      if k < n then (if k < i then RimPoint(ring[k], d0, z0) else Origin)
      else (if k - n < i then RimPoint(ring[k - n], d1, z1) else Origin))
  }

  function NormalsAfter(ring: seq<UnitPoint>, d0: real, z0: real, i: nat): (ns: seq<Normal>)
    ensures |ns| == 2 * |ring|
  {
    var n := |ring|;
    seq(2 * n, k requires 0 <= k < 2 * n =>
      if k < n then (if k < i then Normalized(RimPoint(ring[k], d0, z0)) else ZeroNormal)
      else (if k - n < i then Normalized(RimPoint(ring[k - n], d0, z0)) else ZeroNormal))
  }

  /** Stores triangle t's corners in slots 3t, 3t + 1 and 3t + 2. */
  function PutTriangle(ts: seq<int>, t: nat, tri: Triangle): (r: seq<int>)
    requires 3 * t + 3 <= |ts|
    ensures |r| == |ts|
  {
    ts[3 * t := tri.a][3 * t + 1 := tri.b][3 * t + 2 := tri.c]
  }

  /** One iteration writes exactly segment i's two triangles and nothing else. */
  lemma TrianglesStep(n: nat, i: nat)
    requires i < n
    ensures TrianglesAfter(n, i + 1) ==
      PutTriangle(PutTriangle(TrianglesAfter(n, i), i, TriangleAt(n, i)), i + n, TriangleAt(n, i + n))
  {
    var after := PutTriangle(PutTriangle(TrianglesAfter(n, i), i, TriangleAt(n, i)), i + n, TriangleAt(n, i + n));
    forall k | 0 <= k < 6 * n
      ensures TrianglesAfter(n, i + 1)[k] == after[k]
    {
      TrianglesStepAt(n, i, k);
    }
  }

  /** Slot k after iteration i: one of segment i's six corners, or unchanged. */
  lemma TrianglesStepAt(n: nat, i: nat, k: nat)
    requires i < n && k < 6 * n
    ensures TrianglesAfter(n, i + 1)[k] ==
      PutTriangle(PutTriangle(TrianglesAfter(n, i), i, TriangleAt(n, i)), i + n, TriangleAt(n, i + n))[k]
  {
    var t, c := k / 3, k % 3;
    assert k == 3 * t + c;
    if t == i || t == i + n {
      SlotOfCorner(n, t, c);
    }
  }

  lemma VerticesStep(ring: seq<UnitPoint>, d0: real, d1: real, z0: real, z1: real, i: nat)
    requires i < |ring|
    ensures VerticesAfter(ring, d0, d1, z0, z1, i + 1) ==
      VerticesAfter(ring, d0, d1, z0, z1, i)[i := RimPoint(ring[i], d0, z0)][i + |ring| := RimPoint(ring[i], d1, z1)]
  {
  }

  lemma NormalsStep(ring: seq<UnitPoint>, d0: real, z0: real, i: nat)
    requires i < |ring|
    ensures NormalsAfter(ring, d0, z0, i + 1) ==
      NormalsAfter(ring, d0, z0, i)[i := Normalized(RimPoint(ring[i], d0, z0))][i + |ring| := Normalized(RimPoint(ring[i], d0, z0))]
  {
  }

  // ---------------------------------------------------------------------
  // Properties of the layout

  /** The source's conditional `i < n - 1 ? i + 1 : 0` is the ring successor
      (i + 1) mod n. */
  lemma NextWraps(n: nat, i: nat)
    requires i < n
    ensures Next(n, i) == (i + 1) % n
  {
    if i == n - 1 {
      assert (i + 1) % n == n % n == 0;
    }
  }

  /** Slot 3t + c of the buffer holds corner c of triangle t. */
  lemma SlotOfCorner(n: nat, t: nat, c: nat)
    requires t < 2 * n && c < 3
    ensures 3 * t + c < 6 * n
    ensures SlotValue(n, 3 * t + c) == TriangleAt(n, t).Corner(c)
  {
    assert (3 * t + c) / 3 == t && (3 * t + c) % 3 == c;
  }

  /** Every index in the buffer names one of the 2n vertices. */
  lemma {:induction false} SlotInRange(n: nat, k: nat)
    requires k < 6 * n
    ensures SlotValue(n, k) < 2 * n
  {
    var t := k / 3;
    assert t < 2 * n;
  }

  /** Segment i's front triangle is (i, i + n, i + 1), wrapping to 0 at the last segment. */
  lemma FrontTriangle(n: nat, i: nat)
    requires i < n
    ensures SlotValue(n, 3 * i) == i
    ensures SlotValue(n, 3 * i + 1) == i + n
    ensures SlotValue(n, 3 * i + 2) == if i < n - 1 then i + 1 else 0
  {
    SlotOfCorner(n, i, 0);
    SlotOfCorner(n, i, 1);
    SlotOfCorner(n, i, 2);
  }

  /** Segment i's rear triangle is (i + n, i + n + 1, i + 1), wrapping to rear
      vertex n and front vertex 0 at the last segment. */
  lemma RearTriangle(n: nat, i: nat)
    requires i < n
    ensures SlotValue(n, 3 * (i + n)) == i + n
    ensures SlotValue(n, 3 * (i + n) + 1) == if i < n - 1 then i + n + 1 else n
    ensures SlotValue(n, 3 * (i + n) + 2) == if i < n - 1 then i + 1 else 0
  {
    SlotOfCorner(n, i + n, 0);
    SlotOfCorner(n, i + n, 1);
    SlotOfCorner(n, i + n, 2);
  }

  /** The two triangles of a segment share the edge from rear vertex i + n to
      front vertex Next(n, i). */
  lemma SegmentSharesEdge(n: nat, i: nat)
    requires i < n
    ensures SlotValue(n, 3 * i + 1) == SlotValue(n, 3 * (i + n)) == i + n
    ensures SlotValue(n, 3 * i + 2) == SlotValue(n, 3 * (i + n) + 2) == Next(n, i)
  {
    FrontTriangle(n, i);
    RearTriangle(n, i);
  }

  /** The buffer slot that iteration i of the constructor's loop writes for
      corner c of the front (rear == false) or rear triangle of segment i. */
  function SegmentSlot(n: nat, i: nat, c: nat, rear: bool): (r: nat) {
    if rear then 3 * (i + n) + c else 3 * i + c
  }

  /** The slots the loop writes cover the whole buffer ... */
  lemma SlotsCovered(n: nat, k: nat)
    requires k < 6 * n
    ensures exists i, c, rear :: 0 <= i < n && 0 <= c < 3 && SegmentSlot(n, i, c, rear) == k
  {
    var t, c := k / 3, k % 3;
    if t < n {
      assert SegmentSlot(n, t, c, false) == k;
    } else {
      assert SegmentSlot(n, t - n, c, true) == k;
    }
  }

  /** ... and no slot is written twice. */
  lemma SlotsDisjoint(n: nat, i: nat, c: nat, rear: bool, i': nat, c': nat, rear': bool)
    requires i < n && c < 3 && i' < n && c' < 3
    requires SegmentSlot(n, i, c, rear) == SegmentSlot(n, i', c', rear')
    ensures i == i' && c == c' && rear == rear'
  {
    var k := SegmentSlot(n, i, c, rear);
    assert k / 3 == (if rear then i + n else i) && k % 3 == c;
    assert k / 3 == (if rear' then i' + n else i') && k % 3 == c';
  }

  /** With at least two segments no triangle is degenerate. */
  lemma TrianglesNonDegenerate(n: nat, t: nat)
    requires 2 <= n && t < 2 * n
    ensures TriangleAt(n, t).a != TriangleAt(n, t).b
    ensures TriangleAt(n, t).b != TriangleAt(n, t).c
    ensures TriangleAt(n, t).a != TriangleAt(n, t).c
  {
  }

  /** Every one of the 2n vertices is used by some slot of the buffer. */
  lemma EveryVertexUsed(n: nat, v: nat)
    requires v < 2 * n
    ensures exists k :: 0 <= k < 6 * n && SlotValue(n, k) == v
  {
    if v < n {
      FrontTriangle(n, v);
      assert SlotValue(n, 3 * v) == v;
    } else {
      RearTriangle(n, v - n);
      assert SlotValue(n, 3 * v) == v;
    }
  }

  /** Two meshes built over the same angles share their seam: the rear ring
      of the first and the front ring of the second coincide when their
      diameters and depths agree. */
  lemma SharedRingCoincides(ring: seq<UnitPoint>, d0: real, d: real, d1: real, z0: real, z: real, z1: real, i: nat)
    requires i < |ring|
    ensures RingVertices(ring, d0, d, z0, z)[i + |ring|] == RingVertices(ring, d, d1, z, z1)[i]
  {
  }

  // ---------------------------------------------------------------------
  // The mesh object

  /** Writes the three corners of triangle t into slots 3t..3t+2 of the buffer. */
  method SetTriangle(ts: array<int>, t: nat, tri: Triangle)
    requires 3 * t + 3 <= ts.Length
    modifies ts
    ensures ts[..] == PutTriangle(old(ts[..]), t, tri)
  {
    ts[3 * t] := tri.a;
    ts[3 * t + 1] := tri.b;
    ts[3 * t + 2] := tri.c;
  }

  /** Writes segment i's front and rear triangles, extending the index
      buffer's finished prefix by one segment. */
  method SetSegmentTriangles(ts: array<int>, n: nat, i: nat, frontTri: Triangle, rearTri: Triangle)
    requires i < n && ts.Length == 6 * n
    requires frontTri == TriangleAt(n, i) && rearTri == TriangleAt(n, i + n)
    requires ts[..] == TrianglesAfter(n, i)
    modifies ts
    ensures ts[..] == TrianglesAfter(n, i + 1)
  {
    SetTriangle(ts, i, frontTri);
    SetTriangle(ts, i + n, rearTri);
    TrianglesStep(n, i);
  }

  /** Writes x into slot i (front ring) and y into slot i + n (rear ring). */
  method SetPair<T>(a: array<T>, i: nat, n: nat, x: T, y: T)
    requires i < n && a.Length == 2 * n
    modifies a
    ensures a[..] == old(a[..])[i := x][i + n := y]
  {
    a[i] := x;
    a[i + n] := y;
  }

  /** CylinderMesh: the vertex, index and normal buffers of Unity's Mesh
      object are held directly as the three arrays. */
  class CylinderMesh {
    /** CircPoints: the number of vertices on each ring. */
    const circPoints: nat
    /** The cos/sin of the ring angles, which depend only on circPoints. */
    const ring: seq<UnitPoint>
    var vertices: array<Vec3>
    var triangles: array<int>
    var normals: array<Normal>

    ghost predicate Valid()
      reads this, vertices, triangles, normals
    {
      |ring| == circPoints &&
      vertices.Length == 2 * circPoints &&
      normals.Length == 2 * circPoints &&
      triangles[..] == TriangleLayout(circPoints)
    }

    /** Whether the vertex array shows the given front and rear rings. */
    ghost predicate Shows(d0: real, d1: real, z0: real, z1: real)
      reads this, vertices
    {
      vertices[..] == RingVertices(ring, d0, d1, z0, z1)
    }

    constructor (d0: real, d1: real, z0: real, z1: real, circPoints: nat, ring: seq<UnitPoint>)
      requires |ring| == circPoints
      ensures this.circPoints == circPoints && this.ring == ring
      ensures Valid()
      ensures Shows(d0, d1, z0, z1)
      ensures normals[..] == RingNormals(ring, d0, z0)
      ensures fresh(vertices) && fresh(triangles) && fresh(normals)
    {
      this.circPoints := circPoints;
      this.ring := ring;
      var n := circPoints;
      var vs := new Vec3[n * 2](_ => Origin);
      var ts := new int[vs.Length * 3](_ => 0);
      var ns := new Normal[n * 2](_ => ZeroNormal);
      assert vs[..] == VerticesAfter(ring, d0, d1, z0, z1, 0);
      assert ns[..] == NormalsAfter(ring, d0, z0, 0);
      assert ts[..] == TrianglesAfter(n, 0);
      for i := 0 to n
        modifies vs, ts, ns
        invariant vs[..] == VerticesAfter(ring, d0, d1, z0, z1, i)
        invariant ns[..] == NormalsAfter(ring, d0, z0, i)
        invariant ts[..] == TrianglesAfter(n, i)
      {
        // Front circle
        var front := RimPoint(ring[i], d0, z0);
        var frontTri := Triangle(i, i + n, if i < n - 1 then i + 1 else 0); // Return to 0th front circle vertex
        // Rear circle
        var rear := RimPoint(ring[i], d1, z1);
        var rearTri := Triangle(i + n, if i < n - 1 then i + n + 1 else n, if i < n - 1 then i + 1 else 0);
        SetPair(vs, i, n, front, rear);
        SetPair(ns, i, n, Normalized(front), Normalized(front));
        assert frontTri == TriangleAt(n, i) && rearTri == TriangleAt(n, i + n);
        SetSegmentTriangles(ts, n, i, frontTri, rearTri);
        VerticesStep(ring, d0, d1, z0, z1, i);
        NormalsStep(ring, d0, z0, i);
      }
      vertices, triangles, normals := vs, ts, ns;
      assert VerticesAfter(ring, d0, d1, z0, z1, n) == RingVertices(ring, d0, d1, z0, z1);
      assert NormalsAfter(ring, d0, z0, n) == RingNormals(ring, d0, z0);
      assert TrianglesAfter(n, n) == TriangleLayout(n);
    }

    /** Rebuilds only the vertex array; the index buffer and the normals stay. */
    method Resize(d0: real, dz: real, z0: real, z1: real)
      requires Valid()
      modifies this
      ensures Valid()
      ensures Shows(d0, dz, z0, z1)
      ensures fresh(vertices)
      ensures triangles == old(triangles) && triangles[..] == old(triangles[..])
      ensures normals == old(normals) && normals[..] == old(normals[..])
    {
      var n := circPoints;
      var vs := new Vec3[n * 2](_ => Origin);
      assert vs[..] == VerticesAfter(ring, d0, dz, z0, z1, 0);
      for i := 0 to n
        modifies vs
        invariant vs[..] == VerticesAfter(ring, d0, dz, z0, z1, i)
      {
        ghost var vs0 := vs[..];
        // Front circle
        vs[i] := RimPoint(ring[i], d0, z0);
        // Rear circle
        vs[i + n] := RimPoint(ring[i], dz, z1);
        assert vs[..] == vs0[i := RimPoint(ring[i], d0, z0)][i + n := RimPoint(ring[i], dz, z1)];
        VerticesStep(ring, d0, dz, z0, z1, i);
      }
      vertices := vs;
      assert VerticesAfter(ring, d0, dz, z0, z1, n) == RingVertices(ring, d0, dz, z0, z1);
    }
  }
}
