/**
 * The second stand script: part A with each tenon placed right after its
 * leg, and part B built in assembly orientation with the split plane at
 * z = 0, fan rings added around the fan holes, then flipped upside down for
 * printing.
 */
module StandV2 {
  import opened MeshKit
  import opened Primitives
  import opened MeshFlip
  import opened Layout
  import opened Stand
  import StandV1

  const FanCutRadius: real := 76.0 / 2.0     // FAN_CUT_R
  const FanScrewSpacing: real := 71.5        // FAN_SCREW_SPACING
  const FanScrewRadius: real := 4.3 / 2.0    // FAN_SCREW_R

  /** `part_a_meshes`: the rails, then for each leg position the lower leg followed by its tenon. */
  function PartA(): (ps: seq<Prim>)
    ensures |ps| == 10 && forall i :: 0 <= i < |ps| ==> ps[i].Box?
  {
    Rails()
    + [Leg(-LegX, -1.0, SplitZ, 0.0), Tenon(-LegX, -1.0), Leg(-LegX, 1.0, SplitZ, 0.0), Tenon(-LegX, 1.0)]
    + [Leg(LegX, -1.0, SplitZ, 0.0), Tenon(LegX, -1.0), Leg(LegX, 1.0, SplitZ, 0.0), Tenon(LegX, 1.0)]
  }

  /** upper_leg_h: from the split plane up to the bottom of the shelf. */
  const UpperLegHeight: real := ShelfZ - ShelfThickness - SplitZ

  /** brace_z: half-way up the upper legs. */
  const BraceZ: real := UpperLegHeight / 2.0

  /** shelf_z: the local height of the shelf bottom. */
  const ShelfBottom: real := UpperLegHeight

  /** shelf_top */
  const ShelfTop: real := ShelfBottom + ShelfThickness

  /** cz: the local height of the cradle bottom. */
  const CradleBottom: real := ShelfTop + CableGap

  /** total_b_h */
  const TotalHeight: real := CradleBottom + WallHeight

  /** The screw boss of fan fx in corner (dx, dy), 16 segments, from height z. */
  function Boss(fx: real, dx: real, dy: real, z: real): (p: Prim)
    ensures p.Cylinder? && p.r == FanScrewRadius + 3.0 && p.n == 16
    ensures Bottom(p) == z && Top(p) == z + ShelfThickness
    ensures p.cx - fx == dx * FanScrewSpacing / 2.0 && p.cy == dy * FanScrewSpacing / 2.0
  {
    Cylinder(FanScrewRadius + 3.0, ShelfThickness, fx + dx * FanScrewSpacing / 2.0, dy * FanScrewSpacing / 2.0, z, 16)
  }

  /** For one fan: the 48-segment ring around its hole, then its four bosses (`for dx: for dy`). */
  function FanMount(fx: real, z: real): (ps: seq<Prim>)
    ensures |ps| == 5 && ps[0].Ring? && ps[0].n == 48
    ensures forall i :: 1 <= i < |ps| ==> ps[i].Cylinder? && ps[i].n == 16
    ensures forall i :: 1 <= i < |ps| ==>
      && ps[i].cx == fx + (if i < 3 then -35.75 else 35.75)
      && ps[i].cy == (if i % 2 == 1 then -35.75 else 35.75)
  {
    [Ring(FanCutRadius + 4.0, FanCutRadius, ShelfThickness, fx, 0.0, z, 48),
     Boss(fx, -1.0, -1.0, z), Boss(fx, -1.0, 1.0, z), Boss(fx, 1.0, -1.0, z), Boss(fx, 1.0, 1.0, z)]
  }

  /** `pb`: part B in assembly orientation, the split plane at z = 0. */
  function PartB(): (ps: seq<Prim>)
    ensures |ps| == 27
    ensures forall i :: 0 <= i < |ps| ==>
      (ps[i].Ring? <==> i == 7 || i == 12) && (ps[i].Cylinder? <==> 8 <= i < 12 || 13 <= i < 17)
  {
    Legs(UpperLegHeight, 0.0) + Braces(BraceZ) + [Shelf(ShelfBottom)]
    + FanMount(Fan1X, ShelfBottom) + FanMount(Fan2X, ShelfBottom)
    + Posts(ShelfTop) + Cradle(CradleBottom)
  }

  /**
   * Part B as the script builds it: assembled, then `flip_z` about its
   * total height, so that the cradle rests on the build plate.
   */
  method PrintPartB(rim: Sampling) returns (assembly: array2<Point>, printed: array2<Point>)
    ensures fresh(assembly) && fresh(printed) && assembly.Length1 == 3 && printed.Length1 == 3
    ensures Triangles(assembly) == Model(PartB(), rim)
    ensures Triangles(printed) == FlipMesh(Model(PartB(), rim), TotalHeight)
  {
    assembly := Assemble(PartB(), rim);
    printed := FlipZ(assembly, TotalHeight);
  }

  // ---------------------------------------------------------------------

  /** The derived heights, worked out. */
  lemma Heights()
    ensures UpperLegHeight == ShelfBottom == 85.0 && BraceZ == 42.5
    ensures ShelfTop == 90.0 && CradleBottom == 140.0 && TotalHeight == 210.0
  {
  }

  /**
   * Part A holds the same ten boxes as in the first script, only reordered:
   * the rails first, then each lower leg directly followed by its tenon.
   */
  lemma PartAReordersV1()
    ensures |PartA()| == |StandV1.PartA()| == 10
    ensures PartA()[..2] == StandV1.PartA()[..2]
    ensures forall k :: 0 <= k < 4 ==>
      PartA()[2 + 2 * k] == StandV1.PartA()[2 + k] && PartA()[3 + 2 * k] == StandV1.PartA()[6 + k]
  {
  }

  /** Every tenon starts on top of the leg placed just before it, strictly inside its footprint. */
  lemma TenonsSeated(k: nat)
    requires k < 4
    ensures PartA()[3 + 2 * k].Box? && PartA()[2 + 2 * k].Box?
    ensures Bottom(PartA()[3 + 2 * k]) == Top(PartA()[2 + 2 * k]) == SplitZ
    ensures StrictlyInsideFootprint(PartA()[3 + 2 * k], PartA()[2 + 2 * k])
  {
    var lx, s := if k < 2 then -LegX else LegX, if k % 2 == 0 then -1.0 else 1.0;
    assert PartA()[2 + 2 * k] == Leg(lx, s, SplitZ, 0.0);
    assert PartA()[3 + 2 * k] == Tenon(lx, s);
    TenonOnLeg(lx, s);
  }

  lemma FanMountFacts(fx: real, z: real)
    ensures CountAll(FanMount(fx, z)) == 640
    ensures Spans(FanMount(fx, z), z, z + ShelfThickness)
  {
    var fm := FanMount(fx, z);
    UniformCount(fm[1..], 64);
  }

  /**
   * The fan rings and bosses are placed at shelf_z, the shelf's bottom, so
   * they occupy the shelf's own slab rather than standing on its top face.
   */
  lemma FanMountInShelfSlab(fx: real)
    ensures forall i :: 0 <= i < |FanMount(fx, ShelfBottom)| ==>
      && Bottom(FanMount(fx, ShelfBottom)[i]) == Bottom(Shelf(ShelfBottom)) < ShelfTop
      && Top(FanMount(fx, ShelfBottom)[i]) == Top(Shelf(ShelfBottom)) == ShelfTop
  {
  }

  /** The heights of part B's groups, in order: upper legs, brace, shelf and fan mounts, posts, cradle. */
  lemma PartBGroups()
    ensures PartB()[..4] == Legs(UpperLegHeight, 0.0)
    ensures PartB()[4..6] == Braces(BraceZ)
    ensures PartB()[6] == Shelf(ShelfBottom)
    ensures PartB()[7..17] == FanMount(Fan1X, ShelfBottom) + FanMount(Fan2X, ShelfBottom)
    ensures PartB()[17..21] == Posts(ShelfTop)
    ensures PartB()[21..] == Cradle(CradleBottom)
  {
    var fans := FanMount(Fan1X, ShelfBottom) + FanMount(Fan2X, ShelfBottom);
    assert PartB() == Legs(UpperLegHeight, 0.0) + Braces(BraceZ) + [Shelf(ShelfBottom)] + fans
                      + Posts(ShelfTop) + Cradle(CradleBottom);
  }

  /** The upper legs reach exactly the bottom of the shelf (`upper_leg_h == shelf_z`). */
  lemma UpperLegsMeetShelf(k: nat)
    requires k < 4
    ensures Bottom(PartB()[k]) == 0.0
    ensures Top(PartB()[k]) == Bottom(PartB()[6]) == ShelfBottom
  {
    PartBGroups();
  }

  /** The corner posts reach exactly the bottom of the cradle. */
  lemma PostsCarryCradle(k: nat, j: nat)
    requires 17 <= k < 21 && 21 <= j < |PartB()|
    ensures Bottom(PartB()[k]) == ShelfTop
    ensures Top(PartB()[k]) == Bottom(PartB()[j]) == CradleBottom
  {
    PartBGroups();
    assert PartB()[k] == Posts(ShelfTop)[k - 17];
    assert PartB()[j] == Cradle(CradleBottom)[j - 21];
  }

  /**
   * Every call of part B lies within [0, total_b_h] and the cradle walls
   * reach total_b_h; so the assembled mesh, and the printed mesh flipped
   * about total_b_h, lie within [0, total_b_h], and flipping the printed
   * part back gives the assembled part.
   */
  lemma PartBWithin(rim: Sampling)
    ensures Spans(PartB(), 0.0, TotalHeight) && Top(PartB()[21]) == TotalHeight
    ensures WithinZ(Model(PartB(), rim), 0.0, TotalHeight)
    ensures WithinZ(FlipMesh(Model(PartB(), rim), TotalHeight), 0.0, TotalHeight)
    ensures FlipMesh(FlipMesh(Model(PartB(), rim), TotalHeight), TotalHeight) == Model(PartB(), rim)
  {
    var fans := FanMount(Fan1X, ShelfBottom) + FanMount(Fan2X, ShelfBottom);
    var h := TotalHeight;
    GroupsSpan(UpperLegHeight, 0.0, BraceZ);
    GroupsSpan(UpperLegHeight, 0.0, ShelfBottom);
    GroupsSpan(UpperLegHeight, 0.0, ShelfTop);
    GroupsSpan(UpperLegHeight, 0.0, CradleBottom);
    FanMountFacts(Fan1X, ShelfBottom);
    FanMountFacts(Fan2X, ShelfBottom);
    SpansWiden(Legs(UpperLegHeight, 0.0), 0.0, UpperLegHeight, 0.0, h);
    SpansWiden(Braces(BraceZ), BraceZ, BraceZ + 10.0, 0.0, h);
    SpansWiden([Shelf(ShelfBottom)], ShelfBottom, ShelfTop, 0.0, h);
    SpansWiden(FanMount(Fan1X, ShelfBottom), ShelfBottom, ShelfTop, 0.0, h);
    SpansWiden(FanMount(Fan2X, ShelfBottom), ShelfBottom, ShelfTop, 0.0, h);
    SpansWiden(Posts(ShelfTop), ShelfTop, CradleBottom, 0.0, h);
    SpansWiden(Cradle(CradleBottom), CradleBottom, h, 0.0, h);
    var p1 := Legs(UpperLegHeight, 0.0) + Braces(BraceZ);
    var p2 := p1 + [Shelf(ShelfBottom)];
    var p3 := p2 + FanMount(Fan1X, ShelfBottom);
    var p4 := p3 + FanMount(Fan2X, ShelfBottom);
    var p5 := p4 + Posts(ShelfTop);
    SpansAppend(Legs(UpperLegHeight, 0.0), Braces(BraceZ), 0.0, h);
    SpansAppend(p1, [Shelf(ShelfBottom)], 0.0, h);
    SpansAppend(p2, FanMount(Fan1X, ShelfBottom), 0.0, h);
    SpansAppend(p3, FanMount(Fan2X, ShelfBottom), 0.0, h);
    SpansAppend(p4, Posts(ShelfTop), 0.0, h);
    SpansAppend(p5, Cradle(CradleBottom), 0.0, h);
    assert PartB() == p5 + Cradle(CradleBottom);
    PartBGroups();
    ModelWithin(PartB(), 0.0, h, rim);
    FlipWithin(Model(PartB(), rim), h);
    FlipTwice(Model(PartB(), rim), h);
  }

  /** Part A is 120 triangles; part B 17 boxes, 2 48-segment rings and 8 16-segment cylinders, 1484 triangles. */
  lemma Counts(rim: Sampling)
    ensures |Model(PartA(), rim)| == 120
    ensures |Model(PartB(), rim)| == 1484
  {
    UniformCount(PartA(), 12);
    ModelCount(PartA(), rim);
    CountsOfGroups(UpperLegHeight, 0.0, BraceZ);
    CountsOfGroups(UpperLegHeight, 0.0, ShelfTop);
    CountsOfGroups(UpperLegHeight, 0.0, CradleBottom);
    FanMountFacts(Fan1X, ShelfBottom);
    FanMountFacts(Fan2X, ShelfBottom);
    var p1 := Legs(UpperLegHeight, 0.0) + Braces(BraceZ);
    var p2 := p1 + [Shelf(ShelfBottom)];
    var p3 := p2 + FanMount(Fan1X, ShelfBottom);
    var p4 := p3 + FanMount(Fan2X, ShelfBottom);
    var p5 := p4 + Posts(ShelfTop);
    CountAllAppend(Legs(UpperLegHeight, 0.0), Braces(BraceZ));
    CountAllAppend(p1, [Shelf(ShelfBottom)]);
    CountAllAppend(p2, FanMount(Fan1X, ShelfBottom));
    CountAllAppend(p3, FanMount(Fan2X, ShelfBottom));
    CountAllAppend(p4, Posts(ShelfTop));
    CountAllAppend(p5, Cradle(CradleBottom));
    ModelCount(PartB(), rim);
  }
}
