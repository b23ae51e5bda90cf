/**
 * Triangle meshes as numpy-stl holds them: a `vectors` buffer of shape
 * (count, 3) whose rows are triangles in winding order.  Coordinates are
 * exact reals.  Also the combinator `combine`, translation along z, and the
 * index-level vocabulary (faces over vertex labels, directed edges) used to
 * state that a primitive is closed and consistently wound.
 */
module MeshKit {

  /** One vertex of a triangle. */
  datatype Point = Point(x: real, y: real, z: real)

  /** A triangle; the order a, b, c is its winding, which fixes its normal. */
  datatype Triangle = Tri(a: Point, b: Point, c: Point)

  type Mesh = seq<Triangle>

  /** What `np.zeros` puts in a fresh buffer. */
  const Origin := Point(0.0, 0.0, 0.0)

  /** Vertex `j` of a triangle, as `vectors[i][j]` indexes it. */
  function Vertex(t: Triangle, j: nat): (p: Point)
    requires j < 3
    ensures p == t.a || p == t.b || p == t.c
  {
    if j == 0 then t.a else if j == 1 then t.b else t.c
  }

  /** The triangles held by a `vectors` buffer. */
  function Triangles(v: array2<Point>): (m: Mesh)
    requires v.Length1 == 3
    reads v
    ensures |m| == v.Length0
    ensures forall i, j :: 0 <= i < v.Length0 && 0 <= j < 3 ==> Vertex(m[i], j) == v[i, j]
  {
    seq(v.Length0, i requires 0 <= i < v.Length0 reads v => Tri(v[i, 0], v[i, 1], v[i, 2]))
  }

  /**
   * `m = mesh.Mesh(np.zeros(len(faces_list)))` followed by the nested loop
   * `m.vectors[i][j] = f[j]` that every primitive builder ends with.
   */
  method ToBuffer(tris: Mesh) returns (v: array2<Point>)
    ensures fresh(v) && v.Length1 == 3
    ensures Triangles(v) == tris
  {
    v := new Point[|tris|, 3]((_, _) => Origin);
    for i := 0 to |tris|
      invariant forall i', j :: 0 <= i' < i && 0 <= j < 3 ==> v[i', j] == Vertex(tris[i'], j)
    {
      for j := 0 to 3
        invariant forall i', j' :: 0 <= i' < i && 0 <= j' < 3 ==> v[i', j'] == Vertex(tris[i'], j')
        invariant forall j' :: 0 <= j' < j ==> v[i, j'] == Vertex(tris[i], j')
      {
        v[i, j] := Vertex(tris[i], j);
      }
    }
    assert forall i :: 0 <= i < |tris| ==> Triangles(v)[i] == tris[i];
  }

  // ---------------------------------------------------------------------
  // combine
  // ---------------------------------------------------------------------

  /** Sum of the triangle counts of a list of meshes. */
  function TotalCount(meshes: seq<Mesh>): nat
  {
    if meshes == [] then 0 else |meshes[0]| + TotalCount(meshes[1..])
  }

  /** `combine(meshes)`: `np.concatenate` of the triangle buffers, in list order. */
  function Combine(meshes: seq<Mesh>): (m: Mesh)
    ensures |m| == TotalCount(meshes)
  {
    if meshes == [] then [] else meshes[0] + Combine(meshes[1..])
  }

  lemma {:induction false} TotalCountAppend(a: seq<Mesh>, b: seq<Mesh>)
    ensures TotalCount(a + b) == TotalCount(a) + TotalCount(b)
  {
    if a != [] {
      assert (a + b)[1..] == a[1..] + b;
      TotalCountAppend(a[1..], b);
    } else {
      assert a + b == b;
    }
  }

  /** Combining two lists is combining each and concatenating. */
  lemma {:induction false} CombineAppend(a: seq<Mesh>, b: seq<Mesh>)
    ensures Combine(a + b) == Combine(a) + Combine(b)
  {
    if a == [] {
      assert a + b == b;
    } else {
      assert (a + b)[1..] == a[1..] + b;
      CombineAppend(a[1..], b);
    }
  }

  /**
   * Order is kept: triangle `k` of input `i` lands at position
   * TotalCount(meshes[..i]) + k of the result.
   */
  lemma {:induction false} CombineAt(meshes: seq<Mesh>, i: nat, k: nat)
    requires i < |meshes| && k < |meshes[i]|
    ensures TotalCount(meshes[..i]) + k < |Combine(meshes)|
    ensures Combine(meshes)[TotalCount(meshes[..i]) + k] == meshes[i][k]
  {
    assert meshes == meshes[..i] + meshes[i..];
    CombineAppend(meshes[..i], meshes[i..]);
    TotalCountAppend(meshes[..i], meshes[i..]);
    assert meshes[i..][1..] == meshes[i + 1..];
  }

  /** Every triangle of the result comes from one of the inputs, and conversely. */
  lemma {:induction false} CombineMember(meshes: seq<Mesh>, t: Triangle)
    ensures t in Combine(meshes) <==> exists i :: 0 <= i < |meshes| && t in meshes[i]
  {
    if meshes != [] {
      CombineMember(meshes[1..], t);
      if t in Combine(meshes[1..]) {
        var i :| 0 <= i < |meshes[1..]| && t in meshes[1..][i];
        assert t in meshes[i + 1];
      }
      if exists i :: 0 <= i < |meshes| && t in meshes[i] {
        var i :| 0 <= i < |meshes| && t in meshes[i];
        if i > 0 {
          assert t in meshes[1..][i - 1];
        }
      }
    }
  }

  // ---------------------------------------------------------------------
  // translation along z (the part-local re-expression of the split)
  // ---------------------------------------------------------------------

  function LiftPoint(p: Point, dz: real): Point
  {
    p.(z := p.z + dz)
  }

  function LiftTriangle(t: Triangle, dz: real): Triangle
  {
    Tri(LiftPoint(t.a, dz), LiftPoint(t.b, dz), LiftPoint(t.c, dz))
  }

  /** The mesh moved by `dz` along z; nothing else about a vertex changes. */
  function Translate(m: Mesh, dz: real): (r: Mesh)
    ensures |r| == |m|
    ensures forall i, j :: 0 <= i < |m| && 0 <= j < 3 ==>
      Vertex(r[i], j).x == Vertex(m[i], j).x && Vertex(r[i], j).y == Vertex(m[i], j).y &&
      Vertex(r[i], j).z == Vertex(m[i], j).z + dz
  {
    seq(|m|, i requires 0 <= i < |m| => LiftTriangle(m[i], dz))
  }

  /** Translating a combined mesh is combining the translated inputs. */
  lemma {:induction false} TranslateCombine(meshes: seq<Mesh>, dz: real)
    ensures Translate(Combine(meshes), dz)
         == Combine(seq(|meshes|, i requires 0 <= i < |meshes| => Translate(meshes[i], dz)))
  {
    var moved := seq(|meshes|, i requires 0 <= i < |meshes| => Translate(meshes[i], dz));
    if meshes != [] {
      var rest := seq(|meshes[1..]|, i requires 0 <= i < |meshes[1..]| => Translate(meshes[1..][i], dz));
      assert moved[1..] == rest;
      TranslateCombine(meshes[1..], dz);
      assert Translate(meshes[0] + Combine(meshes[1..]), dz)
          == Translate(meshes[0], dz) + Translate(Combine(meshes[1..]), dz);
    }
  }

  // ---------------------------------------------------------------------
  // height bounds
  // ---------------------------------------------------------------------

  predicate InSlab(p: Point, lo: real, hi: real)
  {
    lo <= p.z <= hi
  }

  /** Every vertex of every triangle of `m` lies at a height in [lo, hi]. */
  predicate WithinZ(m: Mesh, lo: real, hi: real)
  {
    forall t :: t in m ==> InSlab(t.a, lo, hi) && InSlab(t.b, lo, hi) && InSlab(t.c, lo, hi)
  }

  /** A combination of meshes that all lie within [lo, hi] lies within [lo, hi]. */
  lemma CombineWithin(meshes: seq<Mesh>, lo: real, hi: real)
    requires forall i :: 0 <= i < |meshes| ==> WithinZ(meshes[i], lo, hi)
    ensures WithinZ(Combine(meshes), lo, hi)
  {
    forall t | t in Combine(meshes)
      ensures InSlab(t.a, lo, hi) && InSlab(t.b, lo, hi) && InSlab(t.c, lo, hi)
    {
      CombineMember(meshes, t);
    }
  }

  // ---------------------------------------------------------------------
  // faces over vertex labels, directed edges, closure
  // ---------------------------------------------------------------------

  /** A triangle over vertex labels, in winding order p, q, r. */
  datatype Face<V> = Face(p: V, q: V, r: V)

  /** The mesh obtained by placing every label of every face. */
  function Realize<V>(faces: seq<Face<V>>, place: V -> Point): (m: Mesh)
    ensures |m| == |faces|
  {
    seq(|faces|, k requires 0 <= k < |faces| =>
      Tri(place(faces[k].p), place(faces[k].q), place(faces[k].r)))
  }

  /** A mesh realized from placements that all lie within [lo, hi] lies within [lo, hi]. */
  lemma RealizeWithin<V>(faces: seq<Face<V>>, place: V -> Point, lo: real, hi: real)
    requires forall v :: InSlab(place(v), lo, hi)
    ensures WithinZ(Realize(faces, place), lo, hi)
  {
    var m := Realize(faces, place);
    forall t | t in m
      ensures InSlab(t.a, lo, hi) && InSlab(t.b, lo, hi) && InSlab(t.c, lo, hi)
    {
      var k :| 0 <= k < |m| && m[k] == t;
      assert InSlab(place(faces[k].p), lo, hi) && InSlab(place(faces[k].q), lo, hi) && InSlab(place(faces[k].r), lo, hi);
    }
  }

  /** Placing every label dz higher translates the realized mesh by dz. */
  lemma RealizeLift<V>(faces: seq<Face<V>>, place: V -> Point, lifted: V -> Point, dz: real)
    requires forall v :: lifted(v) == LiftPoint(place(v), dz)
    ensures Realize(faces, lifted) == Translate(Realize(faces, place), dz)
  {
    var m, moved := Realize(faces, lifted), Translate(Realize(faces, place), dz);
    forall k | 0 <= k < |faces| ensures m[k] == moved[k] {
      var f := faces[k];
      assert lifted(f.p) == LiftPoint(place(f.p), dz);
      assert lifted(f.q) == LiftPoint(place(f.q), dz);
      assert lifted(f.r) == LiftPoint(place(f.r), dz);
    }
  }

  /** Directed edge `e` of a face: p->q, q->r, r->p. */
  function FaceEdge<V>(f: Face<V>, e: nat): (V, V)
    requires e < 3
  {
    if e == 0 then (f.p, f.q) else if e == 1 then (f.q, f.r) else (f.r, f.p)
  }

  /** All directed edges, three per face, face by face. */
  function Edges<V>(faces: seq<Face<V>>): (es: seq<(V, V)>)
    ensures |es| == 3 * |faces|
  {
    if faces == [] then []
    else [FaceEdge(faces[0], 0), FaceEdge(faces[0], 1), FaceEdge(faces[0], 2)] + Edges(faces[1..])
  }

  /** Edge `e` of face `t` sits at position 3t + e. */
  lemma {:induction false} EdgesAt<V>(faces: seq<Face<V>>, t: nat, e: nat)
    requires t < |faces| && e < 3
    ensures Edges(faces)[3 * t + e] == FaceEdge(faces[t], e)
  {
    if t > 0 {
      EdgesAt(faces[1..], t - 1, e);
    }
  }

  function Reversed<V>(e: (V, V)): (V, V)
  {
    (e.1, e.0)
  }

  ghost predicate Distinct<T>(s: seq<T>)
  {
    forall p, q :: 0 <= p < q < |s| ==> s[p] != s[q]
  }

  /** No face repeats a vertex label: every face is a proper triangle. */
  ghost predicate NonDegenerate<V>(faces: seq<Face<V>>)
  {
    forall t :: 0 <= t < |faces| ==> faces[t].p != faces[t].q && faces[t].q != faces[t].r && faces[t].r != faces[t].p
  }

  /**
   * Closed and consistently wound: every face is a proper triangle, no
   * directed edge occurs twice, and the reverse of every directed edge
   * occurs, so every edge is shared by exactly two faces which traverse it in
   * opposite directions.
   */
  ghost predicate ClosedAndConsistent<V>(faces: seq<Face<V>>)
  {
    var es := Edges(faces);
    NonDegenerate(faces) && Distinct(es) && forall k :: 0 <= k < |es| ==> Reversed(es[k]) in es
  }

  lemma {:induction false} DistinctCount<T>(s: seq<T>, x: T)
    requires Distinct(s)
    ensures multiset(s)[x] == (if x in s then 1 else 0)
  {
    if s != [] {
      assert s == [s[0]] + s[1..];
      assert Distinct(s[1..]) by {
        forall p, q | 0 <= p < q < |s[1..]| ensures s[1..][p] != s[1..][q] {
          assert s[1..][p] == s[p + 1] && s[1..][q] == s[q + 1];
        }
      }
      DistinctCount(s[1..], x);
      if x == s[0] {
        assert x !in s[1..] by {
          forall q | 0 <= q < |s[1..]| ensures s[1..][q] != x {
            assert s[1..][q] == s[q + 1];
          }
        }
      }
    }
  }

  /** In a closed, consistently wound face list each occurring directed edge and its reverse occur exactly once. */
  lemma EdgesExactlyOnce<V>(faces: seq<Face<V>>, e: (V, V))
    requires ClosedAndConsistent(faces)
    requires e in Edges(faces)
    ensures multiset(Edges(faces))[e] == 1
    ensures multiset(Edges(faces))[Reversed(e)] == 1
  {
    var es := Edges(faces);
    var k :| 0 <= k < |es| && es[k] == e;
    DistinctCount(es, e);
    DistinctCount(es, Reversed(e));
  }
}
