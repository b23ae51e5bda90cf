/**
 * The layout vocabulary of the stand scripts: each `make_*(...)` call is a
 * primitive descriptor, a part is the list of descriptors in the order the
 * script appends the meshes, and the part's mesh is `combine` of the
 * rendered list.
 */
module Layout {
  import opened MeshKit
  import opened Primitives

  /** One call of make_box, make_cylinder or make_ring, with its arguments. */
  datatype Prim =
    | Box(w: real, d: real, h: real, cx: real, cy: real, cz: real)
    | Cylinder(r: real, h: real, cx: real, cy: real, cz: real, n: nat)
    | Ring(rOuter: real, rInner: real, h: real, cx: real, cy: real, cz: real, n: nat)

  /** The mesh the call returns. */
  function Render(p: Prim, rim: Sampling): Mesh
  {
    match p
    case Box(w, d, h, cx, cy, cz) => BoxMesh(w, d, h, cx, cy, cz)
    case Cylinder(r, h, cx, cy, cz, n) => CylinderMesh(r, h, cx, cy, cz, n, rim)
    case Ring(ro, ri, h, cx, cy, cz, n) => RingMesh(ro, ri, h, cx, cy, cz, n, rim)
  }

  /** Triangles a call produces: 12 for a box, 4n for a cylinder, 8n for a ring. */
  function Count(p: Prim): nat
  {
    match p
    case Box(_, _, _, _, _, _) => 12
    case Cylinder(_, _, _, _, _, n) => 4 * n
    case Ring(_, _, _, _, _, _, n) => 8 * n
  }

  lemma RenderCount(p: Prim, rim: Sampling)
    ensures |Render(p, rim)| == Count(p)
  {
    match p
    case Box(w, d, h, cx, cy, cz) => BoxShape(w, d, h, cx, cy, cz);
    case Cylinder(r, h, cx, cy, cz, n) => CylinderShape(r, h, cx, cy, cz, n, rim);
    case Ring(ro, ri, h, cx, cy, cz, n) =>
  }

  /** The bottom and top heights of a primitive: cz and cz + h. */
  function Bottom(p: Prim): real
  {
    p.cz
  }

  function Top(p: Prim): real
  {
    p.cz + p.h
  }

  /** The same call with its base height moved by dz. */
  function Shift(p: Prim, dz: real): (q: Prim)
    ensures Bottom(q) == Bottom(p) + dz && Top(q) == Top(p) + dz && Count(q) == Count(p)
  {
    p.(cz := p.cz + dz)
  }

  /** Rendering a shifted call is translating the rendered mesh. */
  lemma RenderShift(p: Prim, dz: real, rim: Sampling)
    ensures Render(Shift(p, dz), rim) == Translate(Render(p, rim), dz)
  {
    match p
    case Box(w, d, h, cx, cy, cz) => BoxShift(w, d, h, cx, cy, cz, dz, rim);
    case Cylinder(r, h, cx, cy, cz, n) => CylinderShift(r, h, cx, cy, cz, n, dz, rim);
    case Ring(ro, ri, h, cx, cy, cz, n) => RingShift(ro, ri, h, cx, cy, cz, n, dz, rim);
  }

  lemma BoxShift(w: real, d: real, h: real, cx: real, cy: real, cz: real, dz: real, rim: Sampling)
    ensures Render(Shift(Box(w, d, h, cx, cy, cz), dz), rim) == Translate(Render(Box(w, d, h, cx, cy, cz), rim), dz)
  {
    BoxLift(w, d, h, cx, cy, cz, dz);
  }

  lemma CylinderShift(r: real, h: real, cx: real, cy: real, cz: real, n: nat, dz: real, rim: Sampling)
    ensures Render(Shift(Cylinder(r, h, cx, cy, cz, n), dz), rim)
         == Translate(Render(Cylinder(r, h, cx, cy, cz, n), rim), dz)
  {
    CylinderLift(r, h, cx, cy, cz, n, rim, dz);
  }

  lemma RingShift(ro: real, ri: real, h: real, cx: real, cy: real, cz: real, n: nat, dz: real, rim: Sampling)
    ensures Render(Shift(Ring(ro, ri, h, cx, cy, cz, n), dz), rim)
         == Translate(Render(Ring(ro, ri, h, cx, cy, cz, n), rim), dz)
  {
    RingLift(ro, ri, h, cx, cy, cz, n, rim, dz);
  }

  /** A call of non-negative height renders between its bottom and its top. */
  lemma RenderWithin(p: Prim, rim: Sampling)
    requires p.h >= 0.0
    ensures WithinZ(Render(p, rim), Bottom(p), Top(p))
  {
    match p
    case Box(w, d, h, cx, cy, cz) =>
      var vs := BoxCorners(w, d, h, cx, cy, cz);
      RealizeWithin(BoxFaces(), (i: CornerIndex) => vs[i], cz, cz + h);
    case Cylinder(r, h, cx, cy, cz, n) =>
      RealizeWithin(CylinderFaces(n), v => CylinderPlace(r, h, cx, cy, cz, n, rim, v), cz, cz + h);
    case Ring(ro, ri, h, cx, cy, cz, n) =>
      RealizeWithin(RingFaces(n), v => RingPlace(ro, ri, h, cx, cy, cz, n, rim, v), cz, cz + h);
  }

  // ---------------------------------------------------------------------
  // parts: descriptor lists
  // ---------------------------------------------------------------------

  function RenderAll(ps: seq<Prim>, rim: Sampling): (ms: seq<Mesh>)
    ensures |ms| == |ps|
  {
    seq(|ps|, i requires 0 <= i < |ps| => Render(ps[i], rim))
  }

  /** The combined mesh of a part. */
  function Model(ps: seq<Prim>, rim: Sampling): Mesh
  {
    Combine(RenderAll(ps, rim))
  }

  function CountAll(ps: seq<Prim>): nat
  {
    if ps == [] then 0 else Count(ps[0]) + CountAll(ps[1..])
  }

  lemma {:induction false} CountAllAppend(a: seq<Prim>, b: seq<Prim>)
    ensures CountAll(a + b) == CountAll(a) + CountAll(b)
  {
    if a == [] {
      assert a + b == b;
    } else {
      assert (a + b)[1..] == a[1..] + b;
      CountAllAppend(a[1..], b);
    }
  }

  /** A list of calls of c triangles each has c triangles per call. */
  lemma {:induction false} UniformCount(ps: seq<Prim>, c: nat)
    requires forall i :: 0 <= i < |ps| ==> Count(ps[i]) == c
    ensures CountAll(ps) == c * |ps|
  {
    if ps != [] {
      UniformCount(ps[1..], c);
    }
  }

  /** A part's triangle count is the sum of its calls' counts. */
  lemma {:induction false} ModelCount(ps: seq<Prim>, rim: Sampling)
    ensures |Model(ps, rim)| == CountAll(ps)
  {
    if ps != [] {
      assert RenderAll(ps, rim)[1..] == RenderAll(ps[1..], rim);
      RenderCount(ps[0], rim);
      ModelCount(ps[1..], rim);
    }
  }

  /** The mesh of two lists one after the other is the two meshes one after the other. */
  lemma ModelAppend(a: seq<Prim>, b: seq<Prim>, rim: Sampling)
    ensures Model(a + b, rim) == Model(a, rim) + Model(b, rim)
  {
    assert RenderAll(a + b, rim) == RenderAll(a, rim) + RenderAll(b, rim);
    CombineAppend(RenderAll(a, rim), RenderAll(b, rim));
  }

  /** Every call has non-negative height and lies within [lo, hi]. */
  predicate Spans(ps: seq<Prim>, lo: real, hi: real)
  {
    forall i :: 0 <= i < |ps| ==> ps[i].h >= 0.0 && lo <= Bottom(ps[i]) && Top(ps[i]) <= hi
  }

  lemma SpansAppend(a: seq<Prim>, b: seq<Prim>, lo: real, hi: real)
    requires Spans(a, lo, hi) && Spans(b, lo, hi)
    ensures Spans(a + b, lo, hi)
  {
    forall i | 0 <= i < |a + b|
      ensures (a + b)[i].h >= 0.0 && lo <= Bottom((a + b)[i]) && Top((a + b)[i]) <= hi
    {
      if i >= |a| {
        assert (a + b)[i] == b[i - |a|];
      }
    }
  }

  lemma SpansWiden(ps: seq<Prim>, lo: real, hi: real, lo': real, hi': real)
    requires Spans(ps, lo, hi) && lo' <= lo && hi <= hi'
    ensures Spans(ps, lo', hi')
  {
  }

  /** A part whose calls all lie within [lo, hi] has its whole mesh within [lo, hi]. */
  lemma ModelWithin(ps: seq<Prim>, lo: real, hi: real, rim: Sampling)
    requires Spans(ps, lo, hi)
    ensures WithinZ(Model(ps, rim), lo, hi)
  {
    var ms := RenderAll(ps, rim);
    forall i | 0 <= i < |ms| ensures WithinZ(ms[i], lo, hi) {
      RenderWithin(ps[i], rim);
    }
    CombineWithin(ms, lo, hi);
  }

  function ShiftAll(ps: seq<Prim>, dz: real): (qs: seq<Prim>)
    ensures |qs| == |ps|
  {
    seq(|ps|, i requires 0 <= i < |ps| => Shift(ps[i], dz))
  }

  lemma ShiftAllAppend(a: seq<Prim>, b: seq<Prim>, dz: real)
    ensures ShiftAll(a + b, dz) == ShiftAll(a, dz) + ShiftAll(b, dz)
  {
  }

  lemma {:induction false} ShiftKeepsCount(ps: seq<Prim>, dz: real)
    ensures CountAll(ShiftAll(ps, dz)) == CountAll(ps)
  {
    if ps != [] {
      assert ShiftAll(ps, dz)[1..] == ShiftAll(ps[1..], dz);
      ShiftKeepsCount(ps[1..], dz);
    }
  }

  /** A part made of shifted calls is the translated mesh of the unshifted part. */
  lemma ModelShift(ps: seq<Prim>, dz: real, rim: Sampling)
    ensures Model(ShiftAll(ps, dz), rim) == Translate(Model(ps, rim), dz)
  {
    var ms := RenderAll(ps, rim);
    var moved := seq(|ms|, i requires 0 <= i < |ms| => Translate(ms[i], dz));
    forall i | 0 <= i < |ps| ensures RenderAll(ShiftAll(ps, dz), rim)[i] == moved[i] {
      RenderShift(ps[i], dz, rim);
    }
    assert RenderAll(ShiftAll(ps, dz), rim) == moved;
    TranslateCombine(ms, dz);
  }

  // ---------------------------------------------------------------------
  // the script's append loops
  // ---------------------------------------------------------------------

  /** One `make_*` call. */
  method MakePrim(p: Prim, rim: Sampling) returns (vectors: array2<Point>)
    ensures fresh(vectors) && vectors.Length1 == 3
    ensures Triangles(vectors) == Render(p, rim)
  {
    match p
    case Box(w, d, h, cx, cy, cz) =>
      vectors := MakeBox(w, d, h, cx, cy, cz);
    case Cylinder(r, h, cx, cy, cz, n) =>
      vectors := MakeCylinder(r, h, cx, cy, cz, n, rim);
    case Ring(ro, ri, h, cx, cy, cz, n) =>
      vectors := MakeRing(ro, ri, h, cx, cy, cz, n, rim);
  }

  /**
   * The script's `parts.append(make_*(...))` sequence followed by
   * `combine(parts)`: the meshes are made in list order and concatenated into
   * a fresh buffer.
   */
  method Assemble(ps: seq<Prim>, rim: Sampling) returns (vectors: array2<Point>)
    ensures fresh(vectors) && vectors.Length1 == 3
    ensures Triangles(vectors) == Model(ps, rim)
  {
    var parts: seq<Mesh> := [];
    for i := 0 to |ps|
      invariant parts == RenderAll(ps[..i], rim)
    {
      var m := MakePrim(ps[i], rim);
      parts := parts + [Triangles(m)];
      assert ps[..i + 1] == ps[..i] + [ps[i]];
    }
    assert ps[..|ps|] == ps;
    vectors := ToBuffer(Combine(parts));
  }
}
