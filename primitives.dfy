/**
 * The three mesh primitives of the cooling-stand generators: make_box,
 * make_cylinder and make_ring.  Each is a face list over vertex labels (its
 * topology) realized by a placement of the labels; the builder methods fill a
 * fresh `vectors` buffer with that mesh as the source does.
 *
 * The rim points of cylinders and rings are `cx + r*cos(a_i), cy + r*sin(a_i)`
 * for the angles of `np.linspace(0, 2*pi, n+1)[:-1]`; the offset
 * (r cos a_i, r sin a_i) is left abstract as a `Sampling` of (r, n, i), so
 * every result here holds whatever those offsets are.
 */
module Primitives {
  import opened MeshKit

  // =====================================================================
  // make_box
  // =====================================================================

  /** Labels of the eight box corners: 0..3 the bottom ring, 4..7 the top ring. */
  type CornerIndex = i: nat | i < 8

  /** The eight corners of the box of width w (x), depth d (y), height h (z), centred at (cx, cy), bottom at cz. */
  function BoxCorners(w: real, d: real, h: real, cx: real, cy: real, cz: real): (vs: seq<Point>)
    ensures |vs| == 8
    ensures forall i :: 0 <= i < 8 ==> IsBoxCorner(vs[i], w, d, h, cx, cy, cz)
    ensures forall i :: 0 <= i < 8 ==> vs[i].z == (if i < 4 then cz else cz + h)
  {
    var x0, x1 := cx - w / 2.0, cx + w / 2.0;
    var y0, y1 := cy - d / 2.0, cy + d / 2.0;
    var z0, z1 := cz, cz + h;
    [Point(x0, y0, z0), Point(x1, y0, z0), Point(x1, y1, z0), Point(x0, y1, z0),
     Point(x0, y0, z1), Point(x1, y0, z1), Point(x1, y1, z1), Point(x0, y1, z1)]
  }

  /** The fixed face table of make_box, two triangles per side. */
  function BoxFaces(): (fs: seq<Face<CornerIndex>>)
    ensures |fs| == 12
  {
    [
    Face(0, 2, 1), Face(0, 3, 2),   // bottom
    Face(4, 5, 6), Face(4, 6, 7),   // top
    Face(0, 1, 5), Face(0, 5, 4),   // front
    Face(2, 3, 7), Face(2, 7, 6),   // back
    Face(0, 4, 7), Face(0, 7, 3),   // left
    Face(1, 2, 6), Face(1, 6, 5)    // right
    ]
  }

  function BoxMesh(w: real, d: real, h: real, cx: real, cy: real, cz: real): (m: Mesh)
    ensures |m| == 12
  {
    var vs := BoxCorners(w, d, h, cx, cy, cz);
    Realize(BoxFaces(), (i: CornerIndex) => vs[i])
  }

  /** `make_box`: fills a 12-row buffer, row i with the corners named by face i. */
  method MakeBox(w: real, d: real, h: real, cx: real, cy: real, cz: real) returns (vectors: array2<Point>)
    ensures fresh(vectors) && vectors.Length1 == 3
    ensures Triangles(vectors) == BoxMesh(w, d, h, cx, cy, cz)
  {
    var verts := BoxCorners(w, d, h, cx, cy, cz);
    var faces := BoxFaces();
    vectors := new Point[12, 3]((_, _) => Origin);
    for i := 0 to 12
      invariant forall i', j :: 0 <= i' < i && 0 <= j < 3 ==> vectors[i', j] == verts[FaceCorner(faces[i'], j)]
    {
      for j := 0 to 3
        invariant forall i', j' :: 0 <= i' < i && 0 <= j' < 3 ==> vectors[i', j'] == verts[FaceCorner(faces[i'], j')]
        invariant forall j' :: 0 <= j' < j ==> vectors[i, j'] == verts[FaceCorner(faces[i], j')]
      {
        vectors[i, j] := verts[FaceCorner(faces[i], j)];
      }
    }
    assert forall i :: 0 <= i < 12 ==> Triangles(vectors)[i] == BoxMesh(w, d, h, cx, cy, cz)[i];
  }

  /** `f[j]`: label `j` of a face. */
  function FaceCorner<V>(f: Face<V>, j: nat): V
    requires j < 3
  {
    if j == 0 then f.p else if j == 1 then f.q else f.r
  }

  /** A point is one of the eight corners of [cx ± w/2] x [cy ± d/2] x [cz, cz + h]. */
  predicate IsBoxCorner(p: Point, w: real, d: real, h: real, cx: real, cy: real, cz: real)
  {
    && (p.x == cx - w / 2.0 || p.x == cx + w / 2.0)
    && (p.y == cy - d / 2.0 || p.y == cy + d / 2.0)
    && (p.z == cz || p.z == cz + h)
  }

  /** make_box returns exactly 12 triangles, every vertex a box corner. */
  lemma BoxShape(w: real, d: real, h: real, cx: real, cy: real, cz: real)
    ensures |BoxMesh(w, d, h, cx, cy, cz)| == 12
    ensures forall k, j :: 0 <= k < 12 && 0 <= j < 3 ==>
      IsBoxCorner(Vertex(BoxMesh(w, d, h, cx, cy, cz)[k], j), w, d, h, cx, cy, cz)
  {
    var vs := BoxCorners(w, d, h, cx, cy, cz);
    assert forall i :: 0 <= i < 8 ==> IsBoxCorner(vs[i], w, d, h, cx, cy, cz);
  }

  /**
   * The comments of the face table name its sides: triangles 0-1 lie on the
   * bottom plane z = cz, 2-3 on the top z = cz + h, 4-5 on the front
   * y = cy - d/2, 6-7 on the back y = cy + d/2, 8-9 on the left x = cx - w/2
   * and 10-11 on the right x = cx + w/2.
   */
  lemma BoxSides(w: real, d: real, h: real, cx: real, cy: real, cz: real)
    ensures var m := BoxMesh(w, d, h, cx, cy, cz);
      forall j :: 0 <= j < 3 ==>
        && Vertex(m[0], j).z == cz && Vertex(m[1], j).z == cz
        && Vertex(m[2], j).z == cz + h && Vertex(m[3], j).z == cz + h
        && Vertex(m[4], j).y == cy - d / 2.0 && Vertex(m[5], j).y == cy - d / 2.0
        && Vertex(m[6], j).y == cy + d / 2.0 && Vertex(m[7], j).y == cy + d / 2.0
        && Vertex(m[8], j).x == cx - w / 2.0 && Vertex(m[9], j).x == cx - w / 2.0
        && Vertex(m[10], j).x == cx + w / 2.0 && Vertex(m[11], j).x == cx + w / 2.0
  {
  }

  /** A box built dz higher is the box translated by dz. */
  lemma BoxLift(w: real, d: real, h: real, cx: real, cy: real, cz: real, dz: real)
    ensures BoxMesh(w, d, h, cx, cy, cz + dz) == Translate(BoxMesh(w, d, h, cx, cy, cz), dz)
  {
    var vs, ws := BoxCorners(w, d, h, cx, cy, cz), BoxCorners(w, d, h, cx, cy, cz + dz);
    assert forall i: CornerIndex :: ws[i] == LiftPoint(vs[i], dz);
    RealizeLift(BoxFaces(), (i: CornerIndex) => vs[i], (i: CornerIndex) => ws[i], dz);
  }

  /** Position, in Edges(BoxFaces()), of the reverse of each directed edge. */
  function BoxEdgePartner(): seq<nat>
  {
    [5, 30, 12, 29, 18, 0, 16, 34, 9, 8, 22, 25, 2, 35, 15, 14, 6, 24,
     4, 28, 21, 20, 10, 31, 17, 11, 27, 26, 19, 3, 1, 23, 33, 32, 7, 13]
  }

  /** Position, in Edges(BoxFaces()), of each directed edge of the table (36 for any other pair). */
  function BoxEdgePosition(e: (CornerIndex, CornerIndex)): nat
  {
    match e
    case (0, 2) => 0 case (2, 1) => 1 case (1, 0) => 2
    case (0, 3) => 3 case (3, 2) => 4 case (2, 0) => 5
    case (4, 5) => 6 case (5, 6) => 7 case (6, 4) => 8
    case (4, 6) => 9 case (6, 7) => 10 case (7, 4) => 11
    case (0, 1) => 12 case (1, 5) => 13 case (5, 0) => 14
    case (0, 5) => 15 case (5, 4) => 16 case (4, 0) => 17
    case (2, 3) => 18 case (3, 7) => 19 case (7, 2) => 20
    case (2, 7) => 21 case (7, 6) => 22 case (6, 2) => 23
    case (0, 4) => 24 case (4, 7) => 25 case (7, 0) => 26
    case (0, 7) => 27 case (7, 3) => 28 case (3, 0) => 29
    case (1, 2) => 30 case (2, 6) => 31 case (6, 1) => 32
    case (1, 6) => 33 case (6, 5) => 34 case (5, 1) => 35
    case _ => 36
  }

  /** Edge e of face t is found again at its own position 3t + e, and its reverse at its partner's. */
  lemma BoxEdgeLookups(t: nat, e: nat)
    requires t < 12 && e < 3
    ensures BoxEdgePosition(FaceEdge(BoxFaces()[t], e)) == 3 * t + e
    ensures var p := BoxEdgePartner()[3 * t + e];
      p < 36 && FaceEdge(BoxFaces()[p / 3], p % 3) == Reversed(FaceEdge(BoxFaces()[t], e))
  {
    assert t == 0 || t == 1 || t == 2 || t == 3 || t == 4 || t == 5
        || t == 6 || t == 7 || t == 8 || t == 9 || t == 10 || t == 11;
    assert e == 0 || e == 1 || e == 2;
  }

  /** Edge k of the box's edge list is found at position k by BoxEdgePosition, and its reverse at BoxEdgePartner()[k]. */
  lemma BoxEdgeAt(k: nat)
    requires k < 36
    ensures var es := Edges(BoxFaces());
      && |es| == 36 && BoxEdgePosition(es[k]) == k
      && BoxEdgePartner()[k] < 36 && es[BoxEdgePartner()[k]] == Reversed(es[k])
  {
    var faces := BoxFaces();
    EdgesAt(faces, k / 3, k % 3);
    BoxEdgeLookups(k / 3, k % 3);
    var p := BoxEdgePartner()[k];
    EdgesAt(faces, p / 3, p % 3);
  }

  /** No face of the box table repeats a corner. */
  lemma BoxFacesProper()
    ensures NonDegenerate(BoxFaces())
  {
  }

  /** Every directed edge of the box table occurs once and its reverse once: the box is closed and consistently wound. */
  lemma BoxTableClosed()
    ensures ClosedAndConsistent(BoxFaces())
  {
    BoxFacesProper();
    var es := Edges(BoxFaces());
    BoxEdgeAt(0);
    forall p, q | 0 <= p < q < |es| ensures es[p] != es[q] {
      BoxEdgeAt(p);
      BoxEdgeAt(q);
    }
    forall k | 0 <= k < |es| ensures Reversed(es[k]) in es {
      BoxEdgeAt(k);
    }
  }


  // =====================================================================
  // angular sampling shared by make_cylinder and make_ring
  // =====================================================================

  /** An offset (dx, dy) in the XY plane. */
  datatype Offset = Offset(dx: real, dy: real)

  /**
   * rim(r, n, i): the offset (r cos a, r sin a) of rim point i of an
   * n-segment circle of radius r, where a = 2 pi i / n.
   */
  type Sampling = (real, nat, nat) -> Offset

  /** The point at offset `o` from (cx, cy), at height z. */
  function RimPoint(cx: real, cy: real, o: Offset, z: real): Point
  {
    Point(cx + o.dx, cy + o.dy, z)
  }

  /** The segment after i, `(i + 1) % n`, written without `%`. */
  function Next(n: nat, i: nat): nat
  {
    if i + 1 < n then i + 1 else 0
  }

  /** The segment before i. */
  function Prev(n: nat, i: nat): nat
    requires i < n
  {
    if i == 0 then n - 1 else i - 1
  }

  lemma NextIsMod(n: nat, i: nat)
    requires i < n
    ensures Next(n, i) == (i + 1) % n
  {
    if i + 1 == n {
      assert (i + 1) % n == 0;
    }
  }

  // =====================================================================
  // make_cylinder
  // =====================================================================

  /** Labels of cylinder vertices: the two cap centres and the rim points of both caps. */
  datatype CylVertex = BottomCentre | TopCentre | BottomRim(i: nat) | TopRim(i: nat)

  /**
   * Face k of segment i, with j the next segment: 0 the bottom-cap triangle,
   * 1 the top-cap triangle, 2 and 3 the side quad.
   */
  function CylinderFace(n: nat, i: nat, k: nat): Face<CylVertex>
    requires k < 4
  {
    var j := Next(n, i);
    if k == 0 then Face(BottomCentre, BottomRim(j), BottomRim(i))
    else if k == 1 then Face(TopCentre, TopRim(i), TopRim(j))
    else if k == 2 then Face(BottomRim(i), BottomRim(j), TopRim(j))
    else Face(BottomRim(i), TopRim(j), TopRim(i))
  }

  /** The faces of make_cylinder in emission order: four per segment. */
  function CylinderFaces(n: nat): (fs: seq<Face<CylVertex>>)
    ensures |fs| == 4 * n
  {
    seq(4 * n, t requires 0 <= t < 4 * n => CylinderFace(n, t / 4, t % 4))
  }

  /** Where make_cylinder puts each vertex: the centres on the axis, rim point i at offset rim(r, n, i); bottom at cz, top at cz + h. */
  function CylinderPlace(r: real, h: real, cx: real, cy: real, cz: real, n: nat, rim: Sampling, v: CylVertex): (p: Point)
    ensures p.z == (if v.BottomCentre? || v.BottomRim? then cz else cz + h)
    ensures (v.BottomCentre? || v.TopCentre?) ==> p.x == cx && p.y == cy
    ensures (v.BottomRim? || v.TopRim?) ==> p.x - cx == rim(r, n, v.i).dx && p.y - cy == rim(r, n, v.i).dy
  {
    match v
    case BottomCentre => Point(cx, cy, cz)
    case TopCentre => Point(cx, cy, cz + h)
    case BottomRim(i) => RimPoint(cx, cy, rim(r, n, i), cz)
    case TopRim(i) => RimPoint(cx, cy, rim(r, n, i), cz + h)
  }

  function CylinderMesh(r: real, h: real, cx: real, cy: real, cz: real, n: nat, rim: Sampling): (m: Mesh)
    ensures |m| == 4 * n
  {
    Realize(CylinderFaces(n), v => CylinderPlace(r, h, cx, cy, cz, n, rim, v))
  }

  /** `make_cylinder`: appends four triangles per segment to a list, then fills a buffer from it. */
  method MakeCylinder(r: real, h: real, cx: real, cy: real, cz: real, n: nat, rim: Sampling)
    returns (vectors: array2<Point>)
    ensures fresh(vectors) && vectors.Length1 == 3
    ensures Triangles(vectors) == CylinderMesh(r, h, cx, cy, cz, n, rim)
  {
    ghost var spec := CylinderMesh(r, h, cx, cy, cz, n, rim);
    var facesList: Mesh := [];
    for i := 0 to n
      invariant |facesList| == 4 * i
      invariant forall t :: 0 <= t < 4 * i ==> facesList[t] == spec[t]
    {
      var a1, a2 := rim(r, n, i), rim(r, n, (i + 1) % n);
      NextIsMod(n, i);
      var x1, y1 := cx + a1.dx, cy + a1.dy;
      var x2, y2 := cx + a2.dx, cy + a2.dy;
      var segment := CylinderSegment(cx, cy, cz, h, x1, y1, x2, y2);
      assert segment == CylinderSegmentFor(h, cx, cy, cz, a1, a2);
      CylinderSegmentInMesh(r, h, cx, cy, cz, n, rim, i);
      ghost var before := facesList;
      facesList := facesList + segment;
      assert forall t :: 0 <= t < 4 * i ==> facesList[t] == before[t];
      assert forall t :: 4 * i <= t < 4 * i + 4 ==> facesList[t] == segment[t - 4 * i];
    }
    vectors := ToBuffer(facesList);
  }

  /**
   * The four triangles make_cylinder's loop body appends for one segment,
   * from its rim points (x1, y1) and (x2, y2): bottom cap, top cap, and the
   * two halves of the side quad.
   */
  function CylinderSegment(cx: real, cy: real, cz: real, h: real, x1: real, y1: real, x2: real, y2: real)
    : (s: seq<Triangle>)
    ensures |s| == 4
    ensures s[0].a.z == s[0].b.z == s[0].c.z == cz
    ensures s[1] == Tri(LiftPoint(s[0].a, h), LiftPoint(s[0].c, h), LiftPoint(s[0].b, h))
    ensures s[2].a == s[3].a && s[2].c == s[3].b
    ensures s[2].a.z == s[2].b.z == cz && s[3].b.z == s[3].c.z == cz + h
  {
    [Tri(Point(cx, cy, cz), Point(x2, y2, cz), Point(x1, y1, cz)),
     Tri(Point(cx, cy, cz + h), Point(x1, y1, cz + h), Point(x2, y2, cz + h)),
     Tri(Point(x1, y1, cz), Point(x2, y2, cz), Point(x2, y2, cz + h)),
     Tri(Point(x1, y1, cz), Point(x2, y2, cz + h), Point(x1, y1, cz + h))]
  }

  /** CylinderSegment for the rim offsets a1 and a2 of a segment. */
  function CylinderSegmentFor(h: real, cx: real, cy: real, cz: real, a1: Offset, a2: Offset): seq<Triangle>
  {
    CylinderSegment(cx, cy, cz, h, cx + a1.dx, cy + a1.dy, cx + a2.dx, cy + a2.dy)
  }

  /** Positions 4i .. 4i+3 of the mesh hold segment i. */
  lemma CylinderMeshAt(r: real, h: real, cx: real, cy: real, cz: real, n: nat, rim: Sampling, i: nat, k: nat)
    requires i < n && k < 4
    ensures 4 * i + k < |CylinderMesh(r, h, cx, cy, cz, n, rim)|
    ensures CylinderMesh(r, h, cx, cy, cz, n, rim)[4 * i + k]
         == CylinderSegmentFor(h, cx, cy, cz, rim(r, n, i), rim(r, n, Next(n, i)))[k]
  {
    assert (4 * i + k) / 4 == i && (4 * i + k) % 4 == k;
    CylinderSegmentPlaced(r, h, cx, cy, cz, n, rim, i, k);
  }
  /** Segment i occupies positions 4i .. 4i+3 of the mesh. */
  lemma CylinderSegmentInMesh(r: real, h: real, cx: real, cy: real, cz: real, n: nat, rim: Sampling, i: nat)
    requires i < n
    ensures |CylinderMesh(r, h, cx, cy, cz, n, rim)| == 4 * n
    ensures forall t :: 4 * i <= t < 4 * i + 4 ==>
      CylinderMesh(r, h, cx, cy, cz, n, rim)[t] == CylinderSegmentFor(h, cx, cy, cz, rim(r, n, i), rim(r, n, Next(n, i)))[t - 4 * i]
  {
    forall t | 4 * i <= t < 4 * i + 4
      ensures CylinderMesh(r, h, cx, cy, cz, n, rim)[t] == CylinderSegmentFor(h, cx, cy, cz, rim(r, n, i), rim(r, n, Next(n, i)))[t - 4 * i]
    {
      CylinderMeshAt(r, h, cx, cy, cz, n, rim, i, t - 4 * i);
    }
  }


  /** Rim vertex i of a cylinder, at the bottom and at the top, is placed at offset a = rim(r, n, i). */
  lemma CylinderRimPlaced(r: real, h: real, cx: real, cy: real, cz: real, n: nat, rim: Sampling, i: nat, a: Offset)
    requires a == rim(r, n, i)
    ensures CylinderPlace(r, h, cx, cy, cz, n, rim, BottomRim(i)) == Point(cx + a.dx, cy + a.dy, cz)
    ensures CylinderPlace(r, h, cx, cy, cz, n, rim, TopRim(i)) == Point(cx + a.dx, cy + a.dy, cz + h)
  {
  }

  /** Face k of segment i, placed, is triangle k of the segment the loop body writes. */
  lemma CylinderSegmentPlaced(r: real, h: real, cx: real, cy: real, cz: real, n: nat, rim: Sampling, i: nat, k: nat)
    requires k < 4
    ensures var f := CylinderFace(n, i, k);
      Tri(CylinderPlace(r, h, cx, cy, cz, n, rim, f.p),
          CylinderPlace(r, h, cx, cy, cz, n, rim, f.q),
          CylinderPlace(r, h, cx, cy, cz, n, rim, f.r))
      == CylinderSegmentFor(h, cx, cy, cz, rim(r, n, i), rim(r, n, Next(n, i)))[k]
  {
    var a1, a2 := rim(r, n, i), rim(r, n, Next(n, i));
    var j := Next(n, i);
    var b1, b2 := Point(cx + a1.dx, cy + a1.dy, cz), Point(cx + a2.dx, cy + a2.dy, cz);
    var t1, t2 := Point(cx + a1.dx, cy + a1.dy, cz + h), Point(cx + a2.dx, cy + a2.dy, cz + h);
    CylinderRimPlaced(r, h, cx, cy, cz, n, rim, i, a1);
    CylinderRimPlaced(r, h, cx, cy, cz, n, rim, j, a2);
    assert CylinderSegmentFor(h, cx, cy, cz, a1, a2)
        == [Tri(Point(cx, cy, cz), b2, b1), Tri(Point(cx, cy, cz + h), t1, t2), Tri(b1, b2, t2), Tri(b1, t2, t1)];
  }

  /** The two cap triangles of segment i: the top one is the bottom one lifted by h, with the opposite winding. */
  lemma CylinderCapsAt(r: real, h: real, cx: real, cy: real, cz: real, n: nat, rim: Sampling, i: nat)
    requires i < n
    ensures var m := CylinderMesh(r, h, cx, cy, cz, n, rim);
      && 4 * i + 1 < |m|
      && m[4 * i].a.z == cz && m[4 * i].b.z == cz && m[4 * i].c.z == cz
      && m[4 * i + 1] == Tri(LiftPoint(m[4 * i].a, h), LiftPoint(m[4 * i].c, h), LiftPoint(m[4 * i].b, h))
  {
    var a1, a2 := rim(r, n, i), rim(r, n, Next(n, i));
    var seg := CylinderSegmentFor(h, cx, cy, cz, a1, a2);
    var x1, y1, x2, y2 := cx + a1.dx, cy + a1.dy, cx + a2.dx, cy + a2.dy;
    assert seg == CylinderSegment(cx, cy, cz, h, x1, y1, x2, y2);
    assert seg[0] == Tri(Point(cx, cy, cz), Point(x2, y2, cz), Point(x1, y1, cz));
    assert seg[1] == Tri(Point(cx, cy, cz + h), Point(x1, y1, cz + h), Point(x2, y2, cz + h));
    CylinderMeshAt(r, h, cx, cy, cz, n, rim, i, 0);
    CylinderMeshAt(r, h, cx, cy, cz, n, rim, i, 1);
  }

  /**
   * make_cylinder returns 4n triangles.  In segment i the bottom-cap triangle
   * lies at z = cz, the top-cap triangle at z = cz + h and is the bottom one
   * lifted by h with the opposite winding, and the last segment closes the
   * circle on rim point 0.
   */
  lemma CylinderShape(r: real, h: real, cx: real, cy: real, cz: real, n: nat, rim: Sampling)
    ensures |CylinderMesh(r, h, cx, cy, cz, n, rim)| == 4 * n
    ensures forall i :: 0 <= i < n ==>
      var m := CylinderMesh(r, h, cx, cy, cz, n, rim);
      && m[4 * i].a.z == cz && m[4 * i].b.z == cz && m[4 * i].c.z == cz
      && m[4 * i + 1].a.z == cz + h && m[4 * i + 1].b.z == cz + h && m[4 * i + 1].c.z == cz + h
      && m[4 * i + 1] == Tri(LiftPoint(m[4 * i].a, h), LiftPoint(m[4 * i].c, h), LiftPoint(m[4 * i].b, h))
    ensures n > 0 ==> CylinderFaces(n)[4 * (n - 1)] == Face(BottomCentre, BottomRim(0), BottomRim(n - 1))
  {
    forall i | 0 <= i < n
      ensures var m := CylinderMesh(r, h, cx, cy, cz, n, rim);
        && m[4 * i].a.z == cz && m[4 * i].b.z == cz && m[4 * i].c.z == cz
        && m[4 * i + 1].a.z == cz + h && m[4 * i + 1].b.z == cz + h && m[4 * i + 1].c.z == cz + h
        && m[4 * i + 1] == Tri(LiftPoint(m[4 * i].a, h), LiftPoint(m[4 * i].c, h), LiftPoint(m[4 * i].b, h))
    {
      CylinderCapsAt(r, h, cx, cy, cz, n, rim, i);
    }
    if n > 0 {
      assert (4 * (n - 1)) / 4 == n - 1 && (4 * (n - 1)) % 4 == 0;
    }
  }

  /** A cylinder built dz higher is the cylinder translated by dz. */
  lemma CylinderLift(r: real, h: real, cx: real, cy: real, cz: real, n: nat, rim: Sampling, dz: real)
    ensures CylinderMesh(r, h, cx, cy, cz + dz, n, rim) == Translate(CylinderMesh(r, h, cx, cy, cz, n, rim), dz)
  {
    RealizeLift(CylinderFaces(n), v => CylinderPlace(r, h, cx, cy, cz, n, rim, v),
                v => CylinderPlace(r, h, cx, cy, cz + dz, n, rim, v), dz);
  }

  /** Distinct (segment, face, edge) positions carry distinct directed edges once there are at least three segments. */
  lemma CylinderEdgesDiffer(n: nat, i: nat, k: nat, e: nat, i': nat, k': nat, e': nat)
    requires n >= 3 && i < n && i' < n && k < 4 && k' < 4 && e < 3 && e' < 3
    requires (i, k, e) != (i', k', e')
    ensures FaceEdge(CylinderFace(n, i, k), e) != FaceEdge(CylinderFace(n, i', k'), e')
  {
  }

  /** Where the reverse of edge e of face k of segment i is: (segment, face, edge). */
  function CylinderPartner(n: nat, i: nat, k: nat, e: nat): (nat, nat, nat)
    requires i < n
  {
    var j, h := Next(n, i), Prev(n, i);
    match (k, e)
    case (0, 0) => (j, 0, 2)  case (0, 1) => (i, 2, 0)  case (0, 2) => (h, 0, 0)
    case (1, 0) => (h, 1, 2)  case (1, 1) => (i, 3, 1)  case (1, 2) => (j, 1, 0)
    case (2, 0) => (i, 0, 1)  case (2, 1) => (j, 3, 2)  case (2, 2) => (i, 3, 0)
    case (3, 0) => (i, 2, 2)  case (3, 1) => (i, 1, 1)  case _ => (h, 2, 1)
  }

  lemma CylinderPartnerReverses(n: nat, i: nat, k: nat, e: nat)
    requires i < n && k < 4 && e < 3
    ensures var (i', k', e') := CylinderPartner(n, i, k, e);
      i' < n && k' < 4 && e' < 3 &&
      FaceEdge(CylinderFace(n, i', k'), e') == Reversed(FaceEdge(CylinderFace(n, i, k), e))
  {
  }

  /** Position p of an edge list with K faces of three edges per segment, split into (segment, face, edge). */
  lemma DecodePosition(p: nat, K: nat)
    requires K == 4 || K == 8
    ensures p == 3 * K * (p / (3 * K)) + 3 * ((p / 3) % K) + p % 3
    ensures p / 3 / K == p / (3 * K)
  {
    var a := p / 3;
    assert p == 3 * a + p % 3;
    assert a == K * (a / K) + a % K;
    assert p / (3 * K) == a / K;
  }

  /** The position of (segment i, face k, edge e) decodes back to i, k, e. */
  lemma EncodePosition(i: nat, k: nat, e: nat, K: nat)
    requires (K == 4 || K == 8) && k < K && e < 3
    ensures var q := 3 * K * i + 3 * k + e;
      q / (3 * K) == i && (q / 3) % K == k && q % 3 == e
  {
    var q := 3 * K * i + 3 * k + e;
    if K == 4 {
      assert q == 12 * i + 3 * k + e && q / 3 == 4 * i + k;
    } else {
      assert q == 24 * i + 3 * k + e && q / 3 == 8 * i + k;
    }
  }

  /** Edge p of the cylinder's edge list is edge p % 3 of face (p / 3) % 4 of segment p / 12. */
  lemma CylinderEdgeAt(n: nat, p: nat)
    requires p < 12 * n
    ensures p / 12 < n
    ensures Edges(CylinderFaces(n))[p] == FaceEdge(CylinderFace(n, p / 12, (p / 3) % 4), p % 3)
  {
    DecodePosition(p, 4);
    EdgesAt(CylinderFaces(n), p / 3, p % 3);
  }

  /** For n >= 3 every directed edge of make_cylinder occurs once and its reverse once: the cylinder is closed. */
  lemma CylinderClosed(n: nat)
    requires n >= 3
    ensures ClosedAndConsistent(CylinderFaces(n))
  {
    var es := Edges(CylinderFaces(n));
    forall t | 0 <= t < 4 * n
      ensures CylinderFaces(n)[t].p != CylinderFaces(n)[t].q && CylinderFaces(n)[t].q != CylinderFaces(n)[t].r
        && CylinderFaces(n)[t].r != CylinderFaces(n)[t].p
    {
      assert t / 4 < n;
    }
    forall p, q | 0 <= p < q < |es| ensures es[p] != es[q] {
      CylinderEdgeAt(n, p);
      CylinderEdgeAt(n, q);
      DecodePosition(p, 4);
      DecodePosition(q, 4);
      CylinderEdgesDiffer(n, p / 12, (p / 3) % 4, p % 3, q / 12, (q / 3) % 4, q % 3);
    }
    forall p | 0 <= p < |es| ensures Reversed(es[p]) in es {
      CylinderEdgeAt(n, p);
      var (i', k', e') := CylinderPartner(n, p / 12, (p / 3) % 4, p % 3);
      CylinderPartnerReverses(n, p / 12, (p / 3) % 4, p % 3);
      EncodePosition(i', k', e', 4);
      CylinderEdgeAt(n, 12 * i' + 3 * k' + e');
    }
  }

  // =====================================================================
  // make_ring
  // =====================================================================

  /** Labels of ring vertices: outer and inner rim points on the bottom and top planes. */
  datatype RingVertex = OuterBottom(i: nat) | OuterTop(i: nat) | InnerBottom(i: nat) | InnerTop(i: nat)

  /**
   * Face k of segment i, with j the next segment: 0-1 the top annulus,
   * 2-3 the bottom annulus, 4-5 the outer wall, 6-7 the inner wall.
   */
  function RingFace(n: nat, i: nat, k: nat): Face<RingVertex>
    requires k < 8
  {
    var j := Next(n, i);
    if k == 0 then Face(OuterTop(i), OuterTop(j), InnerTop(j))
    else if k == 1 then Face(OuterTop(i), InnerTop(j), InnerTop(i))
    else if k == 2 then Face(OuterBottom(j), OuterBottom(i), InnerBottom(i))
    else if k == 3 then Face(OuterBottom(j), InnerBottom(i), InnerBottom(j))
    else if k == 4 then Face(OuterBottom(i), OuterBottom(j), OuterTop(j))
    else if k == 5 then Face(OuterBottom(i), OuterTop(j), OuterTop(i))
    else if k == 6 then Face(InnerBottom(j), InnerBottom(i), InnerTop(i))
    else Face(InnerBottom(j), InnerTop(i), InnerTop(j))
  }

  /** The faces of make_ring in emission order: eight per segment. */
  function RingFaces(n: nat): (fs: seq<Face<RingVertex>>)
    ensures |fs| == 8 * n
  {
    seq(8 * n, t requires 0 <= t < 8 * n => RingFace(n, t / 8, t % 8))
  }

  /** Where make_ring puts each vertex: outer rim point i at offset rim(rOuter, n, i), inner at rim(rInner, n, i); bottom at cz, top at cz + h. */
  function RingPlace(rOuter: real, rInner: real, h: real, cx: real, cy: real, cz: real, n: nat, rim: Sampling,
                     v: RingVertex): (p: Point)
    ensures p.z == (if v.OuterBottom? || v.InnerBottom? then cz else cz + h)
    ensures var o := rim(if v.OuterBottom? || v.OuterTop? then rOuter else rInner, n, v.i);
      p.x - cx == o.dx && p.y - cy == o.dy
  {
    match v
    case OuterBottom(i) => RimPoint(cx, cy, rim(rOuter, n, i), cz)
    case OuterTop(i) => RimPoint(cx, cy, rim(rOuter, n, i), cz + h)
    case InnerBottom(i) => RimPoint(cx, cy, rim(rInner, n, i), cz)
    case InnerTop(i) => RimPoint(cx, cy, rim(rInner, n, i), cz + h)
  }

  function RingMesh(rOuter: real, rInner: real, h: real, cx: real, cy: real, cz: real, n: nat, rim: Sampling): (m: Mesh)
    ensures |m| == 8 * n
  {
    Realize(RingFaces(n), v => RingPlace(rOuter, rInner, h, cx, cy, cz, n, rim, v))
  }

  /**
   * The eight triangles make_ring's loop body appends for one segment, from
   * the outer rim points (ox1, oy1), (ox2, oy2) and inner rim points
   * (ix1, iy1), (ix2, iy2) of its two rim directions.
   */
  function RingSegment(ox1: real, oy1: real, ox2: real, oy2: real, ix1: real, iy1: real, ix2: real, iy2: real,
                       cz: real, h: real): (s: seq<Triangle>)
    ensures |s| == 8
    ensures forall k :: 0 <= k < 2 ==> s[k].a.z == s[k].b.z == s[k].c.z == cz + h
    ensures forall k :: 2 <= k < 4 ==> s[k].a.z == s[k].b.z == s[k].c.z == cz
    ensures forall k :: 0 <= k < 4 ==> s[2 * k].a == s[2 * k + 1].a && s[2 * k].c == s[2 * k + 1].b
    ensures forall k, j :: 4 <= k < 6 && 0 <= j < 3 ==>
      (Vertex(s[k], j).x, Vertex(s[k], j).y) in {(ox1, oy1), (ox2, oy2)}
    ensures forall k, j :: 6 <= k < 8 && 0 <= j < 3 ==>
      (Vertex(s[k], j).x, Vertex(s[k], j).y) in {(ix1, iy1), (ix2, iy2)}
  {
    [ // top face (annular segment)
      Tri(Point(ox1, oy1, cz + h), Point(ox2, oy2, cz + h), Point(ix2, iy2, cz + h)),
      Tri(Point(ox1, oy1, cz + h), Point(ix2, iy2, cz + h), Point(ix1, iy1, cz + h)),
      // bottom face
      Tri(Point(ox2, oy2, cz), Point(ox1, oy1, cz), Point(ix1, iy1, cz)),
      Tri(Point(ox2, oy2, cz), Point(ix1, iy1, cz), Point(ix2, iy2, cz)),
      // outer wall
      Tri(Point(ox1, oy1, cz), Point(ox2, oy2, cz), Point(ox2, oy2, cz + h)),
      Tri(Point(ox1, oy1, cz), Point(ox2, oy2, cz + h), Point(ox1, oy1, cz + h)),
      // inner wall
      Tri(Point(ix2, iy2, cz), Point(ix1, iy1, cz), Point(ix1, iy1, cz + h)),
      Tri(Point(ix2, iy2, cz), Point(ix1, iy1, cz + h), Point(ix2, iy2, cz + h))]
  }

  /** RingSegment for the outer rim offsets o1, o2 and the inner rim offsets i1, i2 of a segment. */
  function RingSegmentFor(h: real, cx: real, cy: real, cz: real, o1: Offset, o2: Offset, i1: Offset, i2: Offset)
    : seq<Triangle>
  {
    RingSegment(cx + o1.dx, cy + o1.dy, cx + o2.dx, cy + o2.dy, cx + i1.dx, cy + i1.dy, cx + i2.dx, cy + i2.dy, cz, h)
  }

  /** Rim vertex i of a ring, outer and inner, bottom and top, is placed at the offsets o = rim(rOuter, n, i) and p = rim(rInner, n, i). */
  lemma RingRimPlaced(rOuter: real, rInner: real, h: real, cx: real, cy: real, cz: real, n: nat, rim: Sampling,
                      i: nat, o: Offset, p: Offset)
    requires o == rim(rOuter, n, i) && p == rim(rInner, n, i)
    ensures RingPlace(rOuter, rInner, h, cx, cy, cz, n, rim, OuterBottom(i)) == Point(cx + o.dx, cy + o.dy, cz)
    ensures RingPlace(rOuter, rInner, h, cx, cy, cz, n, rim, OuterTop(i)) == Point(cx + o.dx, cy + o.dy, cz + h)
    ensures RingPlace(rOuter, rInner, h, cx, cy, cz, n, rim, InnerBottom(i)) == Point(cx + p.dx, cy + p.dy, cz)
    ensures RingPlace(rOuter, rInner, h, cx, cy, cz, n, rim, InnerTop(i)) == Point(cx + p.dx, cy + p.dy, cz + h)
  {
  }

  /** Face k of segment i, placed, is triangle k of the segment the loop body writes. */
  lemma RingSegmentPlaced(rOuter: real, rInner: real, h: real, cx: real, cy: real, cz: real, n: nat, rim: Sampling,
                          i: nat, k: nat)
    requires k < 8
    ensures var f := RingFace(n, i, k);
      Tri(RingPlace(rOuter, rInner, h, cx, cy, cz, n, rim, f.p),
          RingPlace(rOuter, rInner, h, cx, cy, cz, n, rim, f.q),
          RingPlace(rOuter, rInner, h, cx, cy, cz, n, rim, f.r))
      == RingSegmentFor(h, cx, cy, cz, rim(rOuter, n, i), rim(rOuter, n, Next(n, i)),
                           rim(rInner, n, i), rim(rInner, n, Next(n, i)))[k]
  {
    var j := Next(n, i);
    var o1, o2 := rim(rOuter, n, i), rim(rOuter, n, j);
    var p1, p2 := rim(rInner, n, i), rim(rInner, n, j);
    RingRimPlaced(rOuter, rInner, h, cx, cy, cz, n, rim, i, o1, p1);
    RingRimPlaced(rOuter, rInner, h, cx, cy, cz, n, rim, j, o2, p2);
    var o1b, o2b := Point(cx + o1.dx, cy + o1.dy, cz), Point(cx + o2.dx, cy + o2.dy, cz);
    var o1t, o2t := Point(cx + o1.dx, cy + o1.dy, cz + h), Point(cx + o2.dx, cy + o2.dy, cz + h);
    var i1b, i2b := Point(cx + p1.dx, cy + p1.dy, cz), Point(cx + p2.dx, cy + p2.dy, cz);
    var i1t, i2t := Point(cx + p1.dx, cy + p1.dy, cz + h), Point(cx + p2.dx, cy + p2.dy, cz + h);
    assert RingSegmentFor(h, cx, cy, cz, o1, o2, p1, p2)
        == [Tri(o1t, o2t, i2t), Tri(o1t, i2t, i1t), Tri(o2b, o1b, i1b), Tri(o2b, i1b, i2b),
            Tri(o1b, o2b, o2t), Tri(o1b, o2t, o1t), Tri(i2b, i1b, i1t), Tri(i2b, i1t, i2t)];
  }

  /** Positions 8i .. 8i+7 of the mesh hold segment i. */
  lemma RingMeshAt(rOuter: real, rInner: real, h: real, cx: real, cy: real, cz: real, n: nat, rim: Sampling,
                   i: nat, k: nat)
    requires i < n && k < 8
    ensures 8 * i + k < |RingMesh(rOuter, rInner, h, cx, cy, cz, n, rim)|
    ensures RingMesh(rOuter, rInner, h, cx, cy, cz, n, rim)[8 * i + k]
         == RingSegmentFor(h, cx, cy, cz, rim(rOuter, n, i), rim(rOuter, n, Next(n, i)),
                           rim(rInner, n, i), rim(rInner, n, Next(n, i)))[k]
  {
    assert (8 * i + k) / 8 == i && (8 * i + k) % 8 == k;
    RingSegmentPlaced(rOuter, rInner, h, cx, cy, cz, n, rim, i, k);
  }
  /** Segment i occupies positions 8i .. 8i+7 of the mesh. */
  lemma RingSegmentInMesh(rOuter: real, rInner: real, h: real, cx: real, cy: real, cz: real, n: nat, rim: Sampling, i: nat)
    requires i < n
    ensures |RingMesh(rOuter, rInner, h, cx, cy, cz, n, rim)| == 8 * n
    ensures forall t :: 8 * i <= t < 8 * i + 8 ==>
      RingMesh(rOuter, rInner, h, cx, cy, cz, n, rim)[t] == RingSegmentFor(h, cx, cy, cz, rim(rOuter, n, i), rim(rOuter, n, Next(n, i)),
                           rim(rInner, n, i), rim(rInner, n, Next(n, i)))[t - 8 * i]
  {
    forall t | 8 * i <= t < 8 * i + 8
      ensures RingMesh(rOuter, rInner, h, cx, cy, cz, n, rim)[t] == RingSegmentFor(h, cx, cy, cz, rim(rOuter, n, i), rim(rOuter, n, Next(n, i)),
                           rim(rInner, n, i), rim(rInner, n, Next(n, i)))[t - 8 * i]
    {
      RingMeshAt(rOuter, rInner, h, cx, cy, cz, n, rim, i, t - 8 * i);
    }
  }


  /** `make_ring`: appends eight triangles per segment to a list, then fills a buffer from it. */
  method MakeRing(rOuter: real, rInner: real, h: real, cx: real, cy: real, cz: real, n: nat, rim: Sampling)
    returns (vectors: array2<Point>)
    ensures fresh(vectors) && vectors.Length1 == 3
    ensures Triangles(vectors) == RingMesh(rOuter, rInner, h, cx, cy, cz, n, rim)
  {
    ghost var spec := RingMesh(rOuter, rInner, h, cx, cy, cz, n, rim);
    var facesList: Mesh := [];
    for i := 0 to n
      invariant |facesList| == 8 * i
      invariant forall t :: 0 <= t < 8 * i ==> facesList[t] == spec[t]
    {
      NextIsMod(n, i);
      var o1, o2 := rim(rOuter, n, i), rim(rOuter, n, (i + 1) % n);
      var p1, p2 := rim(rInner, n, i), rim(rInner, n, (i + 1) % n);
      var ox1, oy1 := cx + o1.dx, cy + o1.dy;
      var ox2, oy2 := cx + o2.dx, cy + o2.dy;
      var ix1, iy1 := cx + p1.dx, cy + p1.dy;
      var ix2, iy2 := cx + p2.dx, cy + p2.dy;
      var segment := RingSegment(ox1, oy1, ox2, oy2, ix1, iy1, ix2, iy2, cz, h);
      assert segment == RingSegmentFor(h, cx, cy, cz, o1, o2, p1, p2);
      RingSegmentInMesh(rOuter, rInner, h, cx, cy, cz, n, rim, i);
      ghost var before := facesList;
      facesList := facesList + segment;
      assert forall t :: 0 <= t < 8 * i ==> facesList[t] == before[t];
      assert forall t :: 8 * i <= t < 8 * i + 8 ==> facesList[t] == segment[t - 8 * i];
    }
    vectors := ToBuffer(facesList);
  }

  /** The top pair of a segment lies at z = cz + h and the bottom pair at z = cz. */
  lemma RingSegmentLevels(ox1: real, oy1: real, ox2: real, oy2: real, ix1: real, iy1: real, ix2: real, iy2: real,
                          cz: real, h: real, k: nat)
    requires k < 4
    ensures var t := RingSegment(ox1, oy1, ox2, oy2, ix1, iy1, ix2, iy2, cz, h)[k];
      var z := if k < 2 then cz + h else cz;
      t.a.z == z && t.b.z == z && t.c.z == z
  {
  }

  /** In segment i of make_ring the two top triangles lie at z = cz + h and the two bottom triangles at z = cz. */
  lemma RingLevelsAt(rOuter: real, rInner: real, h: real, cx: real, cy: real, cz: real, n: nat, rim: Sampling, i: nat)
    requires i < n
    ensures |RingMesh(rOuter, rInner, h, cx, cy, cz, n, rim)| == 8 * n
    ensures var m := RingMesh(rOuter, rInner, h, cx, cy, cz, n, rim);
      forall t :: 8 * i <= t < 8 * i + 4 ==>
        var z := if t < 8 * i + 2 then cz + h else cz;
        m[t].a.z == z && m[t].b.z == z && m[t].c.z == z
  {
    var m := RingMesh(rOuter, rInner, h, cx, cy, cz, n, rim);
    forall t | 8 * i <= t < 8 * i + 4
      ensures var z := if t < 8 * i + 2 then cz + h else cz;
        m[t].a.z == z && m[t].b.z == z && m[t].c.z == z
    {
      RingMeshAt(rOuter, rInner, h, cx, cy, cz, n, rim, i, t - 8 * i);
      var o1, o2 := rim(rOuter, n, i), rim(rOuter, n, Next(n, i));
      var p1, p2 := rim(rInner, n, i), rim(rInner, n, Next(n, i));
      RingSegmentLevels(cx + o1.dx, cy + o1.dy, cx + o2.dx, cy + o2.dy, cx + p1.dx, cy + p1.dy, cx + p2.dx, cy + p2.dy,
                        cz, h, t - 8 * i);
    }
  }

  /**
   * make_ring returns 8n triangles, and in every segment the first two
   * (the top annulus) lie at z = cz + h and the next two (the bottom
   * annulus) at z = cz.
   */
  lemma RingShape(rOuter: real, rInner: real, h: real, cx: real, cy: real, cz: real, n: nat, rim: Sampling)
    ensures |RingMesh(rOuter, rInner, h, cx, cy, cz, n, rim)| == 8 * n
    ensures var m := RingMesh(rOuter, rInner, h, cx, cy, cz, n, rim);
      forall t :: 0 <= t < 8 * n && t % 8 < 4 ==>
        var z := if t % 8 < 2 then cz + h else cz;
        m[t].a.z == z && m[t].b.z == z && m[t].c.z == z
  {
    var m := RingMesh(rOuter, rInner, h, cx, cy, cz, n, rim);
    forall t | 0 <= t < 8 * n && t % 8 < 4
      ensures var z := if t % 8 < 2 then cz + h else cz;
        m[t].a.z == z && m[t].b.z == z && m[t].c.z == z
    {
      var i := t / 8;
      assert t == 8 * i + t % 8 && i < n;
      RingLevelsAt(rOuter, rInner, h, cx, cy, cz, n, rim, i);
    }
  }

  /** A ring built dz higher is the ring translated by dz. */
  lemma RingLift(rOuter: real, rInner: real, h: real, cx: real, cy: real, cz: real, n: nat, rim: Sampling, dz: real)
    ensures RingMesh(rOuter, rInner, h, cx, cy, cz + dz, n, rim) == Translate(RingMesh(rOuter, rInner, h, cx, cy, cz, n, rim), dz)
  {
    RealizeLift(RingFaces(n), v => RingPlace(rOuter, rInner, h, cx, cy, cz, n, rim, v),
                v => RingPlace(rOuter, rInner, h, cx, cy, cz + dz, n, rim, v), dz);
  }

  lemma RingEdgesDiffer(n: nat, i: nat, k: nat, e: nat, i': nat, k': nat, e': nat)
    requires n >= 3 && i < n && i' < n && k < 8 && k' < 8 && e < 3 && e' < 3
    requires (i, k, e) != (i', k', e')
    ensures FaceEdge(RingFace(n, i, k), e) != FaceEdge(RingFace(n, i', k'), e')
  {
  }

  /** Where the reverse of edge e of face k of segment i is: (segment, face, edge). */
  function RingPartner(n: nat, i: nat, k: nat, e: nat): (nat, nat, nat)
    requires i < n
  {
    var j, h := Next(n, i), Prev(n, i);
    match (k, e)
    case (0, 0) => (i, 5, 1)  case (0, 1) => (j, 1, 2)  case (0, 2) => (i, 1, 0)
    case (1, 0) => (i, 0, 2)  case (1, 1) => (i, 7, 1)  case (1, 2) => (h, 0, 1)
    case (2, 0) => (i, 4, 0)  case (2, 1) => (h, 3, 2)  case (2, 2) => (i, 3, 0)
    case (3, 0) => (i, 2, 2)  case (3, 1) => (i, 6, 0)  case (3, 2) => (j, 2, 1)
    case (4, 0) => (i, 2, 0)  case (4, 1) => (j, 5, 2)  case (4, 2) => (i, 5, 0)
    case (5, 0) => (i, 4, 2)  case (5, 1) => (i, 0, 0)  case (5, 2) => (h, 4, 1)
    case (6, 0) => (i, 3, 1)  case (6, 1) => (h, 7, 2)  case (6, 2) => (i, 7, 0)
    case (7, 0) => (i, 6, 2)  case (7, 1) => (i, 1, 1)  case _ => (j, 6, 1)
  }

  lemma RingPartnerReverses(n: nat, i: nat, k: nat, e: nat)
    requires i < n && k < 8 && e < 3
    ensures var (i', k', e') := RingPartner(n, i, k, e);
      i' < n && k' < 8 && e' < 3 &&
      FaceEdge(RingFace(n, i', k'), e') == Reversed(FaceEdge(RingFace(n, i, k), e))
  {
  }

  lemma RingEdgeAt(n: nat, p: nat)
    requires p < 24 * n
    ensures p / 24 < n
    ensures Edges(RingFaces(n))[p] == FaceEdge(RingFace(n, p / 24, (p / 3) % 8), p % 3)
  {
    DecodePosition(p, 8);
    EdgesAt(RingFaces(n), p / 3, p % 3);
  }

  /** For n >= 3 every directed edge of make_ring occurs once and its reverse once: the ring is closed. */
  lemma RingClosed(n: nat)
    requires n >= 3
    ensures ClosedAndConsistent(RingFaces(n))
  {
    var es := Edges(RingFaces(n));
    forall t | 0 <= t < 8 * n
      ensures RingFaces(n)[t].p != RingFaces(n)[t].q && RingFaces(n)[t].q != RingFaces(n)[t].r
        && RingFaces(n)[t].r != RingFaces(n)[t].p
    {
      assert t / 8 < n;
    }
    forall p, q | 0 <= p < q < |es| ensures es[p] != es[q] {
      RingEdgeAt(n, p);
      RingEdgeAt(n, q);
      DecodePosition(p, 8);
      DecodePosition(q, 8);
      RingEdgesDiffer(n, p / 24, (p / 3) % 8, p % 3, q / 24, (q / 3) % 8, q % 3);
    }
    forall p | 0 <= p < |es| ensures Reversed(es[p]) in es {
      RingEdgeAt(n, p);
      var (i', k', e') := RingPartner(n, p / 24, (p / 3) % 8, p % 3);
      RingPartnerReverses(n, p / 24, (p / 3) % 8, p % 3);
      EncodePosition(i', k', e', 8);
      RingEdgeAt(n, 24 * i' + 3 * k' + e');
    }
  }
}
