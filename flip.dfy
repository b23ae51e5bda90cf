/**
 * `flip_z`: turns a mesh upside down for printing.  Every vertex keeps its
 * x and y and has its height mirrored to `max_z - z`; every triangle then has
 * its vertex order reversed so that its winding, and hence its outward
 * normal, stays consistent with the mirrored solid.
 */
module MeshFlip {
  import opened MeshKit

  function FlipPoint(p: Point, maxZ: real): Point
  {
    p.(z := maxZ - p.z)
  }

  /** The mirrored triangle with its vertex order reversed (`vectors[i][::-1]`). */
  function FlipTriangle(t: Triangle, maxZ: real): Triangle
  {
    Tri(FlipPoint(t.c, maxZ), FlipPoint(t.b, maxZ), FlipPoint(t.a, maxZ))
  }

  function FlipMesh(m: Mesh, maxZ: real): (f: Mesh)
    ensures |f| == |m|
  {
    seq(|m|, i requires 0 <= i < |m| => FlipTriangle(m[i], maxZ))
  }

  /**
   * `flip_z(m, max_z)`: copies the buffer, overwrites the z column with
   * `max_z - z`, then reverses each row.  The input buffer is left as it was.
   */
  method FlipZ(m: array2<Point>, maxZ: real) returns (flipped: array2<Point>)
    requires m.Length1 == 3
    ensures fresh(flipped) && flipped.Length1 == 3
    ensures Triangles(flipped) == FlipMesh(Triangles(m), maxZ)
    ensures unchanged(m)
  {
    var count := m.Length0;
    flipped := new Point[count, 3]((i, j) reads m => if 0 <= i < count && 0 <= j < 3 then m[i, j] else Origin);
    // flipped.vectors[:,:,2] = max_z - flipped.vectors[:,:,2]
    for i := 0 to count
      invariant forall i', j :: 0 <= i' < i && 0 <= j < 3 ==> flipped[i', j] == FlipPoint(m[i', j], maxZ)
      invariant forall i', j :: i <= i' < count && 0 <= j < 3 ==> flipped[i', j] == m[i', j]
    {
      for j := 0 to 3
        invariant forall i', j' :: 0 <= i' < i && 0 <= j' < 3 ==> flipped[i', j'] == FlipPoint(m[i', j'], maxZ)
        invariant forall i', j' :: i < i' < count && 0 <= j' < 3 ==> flipped[i', j'] == m[i', j']
        invariant forall j' :: 0 <= j' < j ==> flipped[i, j'] == FlipPoint(m[i, j'], maxZ)
        invariant forall j' :: j <= j' < 3 ==> flipped[i, j'] == m[i, j']
      {
        flipped[i, j] := FlipPoint(flipped[i, j], maxZ);
      }
    }
    // flipped.vectors[i] = flipped.vectors[i][::-1]
    for i := 0 to count
      invariant forall i', j :: 0 <= i' < i && 0 <= j < 3 ==> flipped[i', j] == FlipPoint(m[i', 2 - j], maxZ)
      invariant forall i', j :: i <= i' < count && 0 <= j < 3 ==> flipped[i', j] == FlipPoint(m[i', j], maxZ)
    {
      var first := flipped[i, 0];
      flipped[i, 0] := flipped[i, 2];
      flipped[i, 2] := first;
    }
    assert forall i :: 0 <= i < count ==> Triangles(flipped)[i] == FlipMesh(Triangles(m), maxZ)[i];
  }

  /**
   * flip_z keeps the triangle count, keeps x and y of every vertex, maps
   * heights to max_z - z and reverses the vertex order of every triangle.
   */
  lemma FlipShape(m: Mesh, maxZ: real)
    ensures |FlipMesh(m, maxZ)| == |m|
    ensures forall i, j :: 0 <= i < |m| && 0 <= j < 3 ==>
      var p, q := Vertex(FlipMesh(m, maxZ)[i], j), Vertex(m[i], 2 - j);
      p.x == q.x && p.y == q.y && p.z == maxZ - q.z
  {
  }

  /** Flipping twice about the same max_z gives back the original mesh. */
  lemma {:induction false} FlipTwice(m: Mesh, maxZ: real)
    ensures FlipMesh(FlipMesh(m, maxZ), maxZ) == m
  {
    var twice := FlipMesh(FlipMesh(m, maxZ), maxZ);
    forall i | 0 <= i < |m| ensures twice[i] == m[i] {
      var t := m[i];
      assert FlipPoint(FlipPoint(t.a, maxZ), maxZ) == t.a;
      assert FlipPoint(FlipPoint(t.b, maxZ), maxZ) == t.b;
      assert FlipPoint(FlipPoint(t.c, maxZ), maxZ) == t.c;
    }
  }

  // ---------------------------------------------------------------------
  // normals
  // ---------------------------------------------------------------------

  datatype Vec = Vec(x: real, y: real, z: real)

  function Sub(p: Point, q: Point): Vec
  {
    Vec(p.x - q.x, p.y - q.y, p.z - q.z)
  }

  function Cross(u: Vec, v: Vec): Vec
  {
    Vec(u.y * v.z - u.z * v.y, u.z * v.x - u.x * v.z, u.x * v.y - u.y * v.x)
  }

  /** The (unnormalised) normal of a triangle as its winding defines it: (b - a) x (c - a). */
  function Normal(t: Triangle): Vec
  {
    Cross(Sub(t.b, t.a), Sub(t.c, t.a))
  }

  /**
   * The normal of a flipped triangle is the original normal mirrored in z:
   * the order reversal undoes the orientation change of the mirror, so an
   * outward normal stays outward.
   */
  lemma FlipNormal(t: Triangle, maxZ: real)
    ensures var n := Normal(t);
      Normal(FlipTriangle(t, maxZ)) == Vec(n.x, n.y, -n.z)
  {
    var a, b, c := t.a, t.b, t.c;
    var u, v := Sub(b, a), Sub(c, a);
    var u', v' := Sub(FlipPoint(b, maxZ), FlipPoint(c, maxZ)), Sub(FlipPoint(a, maxZ), FlipPoint(c, maxZ));
    assert u' == Vec(u.x - v.x, u.y - v.y, v.z - u.z);
    assert v' == Vec(-v.x, -v.y, v.z);
  }

  /** A mesh within [0, maxZ] is still within [0, maxZ] after flipping about maxZ. */
  lemma FlipWithin(m: Mesh, maxZ: real)
    requires WithinZ(m, 0.0, maxZ)
    ensures WithinZ(FlipMesh(m, maxZ), 0.0, maxZ)
  {
    var f := FlipMesh(m, maxZ);
    forall t | t in f
      ensures InSlab(t.a, 0.0, maxZ) && InSlab(t.b, 0.0, maxZ) && InSlab(t.c, 0.0, maxZ)
    {
      var i :| 0 <= i < |f| && f[i] == t;
      assert m[i] in m;
    }
  }
}
