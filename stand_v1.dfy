/**
 * The first stand script: the full model, and the split at SPLIT_Z into
 * part A (rails, lower legs, tenons) and part B (everything above the split,
 * re-expressed with the split plane at z = 0).
 */
module StandV1 {
  import opened MeshKit
  import opened Primitives
  import opened Layout
  import opened Stand

  /** brace_z: half-way between the top of the legs and the bottom of the shelf. */
  const BraceZ: real := FloorClear + (ShelfZ - ShelfThickness - FloorClear) / 2.0

  /** The screw boss of fan fx in corner (dx, dy): radius 5, 16 segments, from height z. */
  function Boss(fx: real, dx: real, dy: real, z: real): (p: Prim)
    ensures p.Cylinder? && p.r == 5.0 && p.n == 16
    ensures Bottom(p) == z && Top(p) == z + ShelfThickness
    ensures p.cx - fx == dx * 35.75 && p.cy == dy * 35.75
  {
    Cylinder(5.0, ShelfThickness, fx + dx * 71.5 / 2.0, dy * 71.5 / 2.0, z, 16)
  }

  /** The eight bosses, `for fx in [F1X, F2X]: for dx in [-1, 1]: for dy in [-1, 1]`. */
  function Bosses(z: real): (ps: seq<Prim>)
    ensures |ps| == 8
    ensures forall i :: 0 <= i < 8 ==> ps[i].Cylinder? && ps[i].r == 5.0 && ps[i].n == 16
    ensures forall i :: 0 <= i < 8 ==> Bottom(ps[i]) == z && Top(ps[i]) == z + ShelfThickness
    ensures forall i :: 0 <= i < 8 ==>
      && ps[i].cx == (if i < 4 then Fan1X else Fan2X) + (if i % 4 < 2 then -35.75 else 35.75)
      && ps[i].cy == (if i % 2 == 0 then -35.75 else 35.75)
  {
    [Boss(Fan1X, -1.0, -1.0, z), Boss(Fan1X, -1.0, 1.0, z), Boss(Fan1X, 1.0, -1.0, z), Boss(Fan1X, 1.0, 1.0, z),
     Boss(Fan2X, -1.0, -1.0, z), Boss(Fan2X, -1.0, 1.0, z), Boss(Fan2X, 1.0, -1.0, z), Boss(Fan2X, 1.0, 1.0, z)]
  }

  /** `parts`: the whole stand in assembly position. */
  function FullModel(): (ps: seq<Prim>)
    ensures |ps| == 27
    ensures forall i :: 0 <= i < |ps| ==> (ps[i].Cylinder? <==> 9 <= i < 17) && !ps[i].Ring?
  {
    Rails() + Legs(FloorClear, 0.0) + Braces(BraceZ) + [Shelf(ShelfZ - ShelfThickness)]
    + Bosses(ShelfZ - ShelfThickness) + Posts(ShelfZ) + Cradle(CradleZ)
  }

  /** `part_a_meshes`: rails, legs cut at SPLIT_Z, and a tenon on each leg. */
  function PartA(): (ps: seq<Prim>)
    ensures |ps| == 10 && forall i :: 0 <= i < |ps| ==> ps[i].Box?
  {
    Rails() + Legs(SplitZ, 0.0) + Tenons()
  }

  /** upper_leg_h */
  const UpperLegHeight: real := FloorClear - SplitZ

  /** `part_b_meshes`: the parts above the split, each at its height minus SPLIT_Z. */
  function PartB(): (ps: seq<Prim>)
    ensures |ps| == 25
    ensures forall i :: 0 <= i < |ps| ==> (ps[i].Cylinder? <==> 7 <= i < 15) && !ps[i].Ring?
  {
    Legs(UpperLegHeight, 0.0) + Braces(BraceZ - SplitZ) + [Shelf(ShelfZ - ShelfThickness - SplitZ)]
    + Bosses(ShelfZ - ShelfThickness - SplitZ) + Posts(ShelfZ - SplitZ) + Cradle(CradleZ - SplitZ)
  }

  /** The part B height the script reports. */
  const PartBHeight: real := CradleZ - SplitZ + WallHeight

  // ---------------------------------------------------------------------

  lemma BossesShift(z: real, dz: real)
    ensures ShiftAll(Bosses(z), dz) == Bosses(z + dz)
  {
  }

  lemma BossesFacts(z: real)
    ensures CountAll(Bosses(z)) == 512
    ensures Spans(Bosses(z), z, z + ShelfThickness)
  {
    UniformCount(Bosses(z), 64);
  }

  /** The full model's calls from 6 on: brace, shelf, bosses, posts, cradle. */
  function FullUpper(): seq<Prim>
  {
    Braces(BraceZ) + [Shelf(ShelfZ - ShelfThickness)] + Bosses(ShelfZ - ShelfThickness) + Posts(ShelfZ)
    + Cradle(CradleZ)
  }

  /** Part B's calls from 4 on. */
  function PartBUpper(): seq<Prim>
  {
    Braces(BraceZ - SplitZ) + [Shelf(ShelfZ - ShelfThickness - SplitZ)] + Bosses(ShelfZ - ShelfThickness - SplitZ)
    + Posts(ShelfZ - SplitZ) + Cradle(CradleZ - SplitZ)
  }

  lemma Slices()
    ensures |FullModel()| == 27 && FullModel()[..6] == Rails() + Legs(FloorClear, 0.0) && FullModel()[6..] == FullUpper()
    ensures |PartB()| == 25 && PartB()[..4] == Legs(UpperLegHeight, 0.0) && PartB()[4..] == PartBUpper()
  {
    assert FullModel() == (Rails() + Legs(FloorClear, 0.0)) + FullUpper();
    assert PartB() == Legs(UpperLegHeight, 0.0) + PartBUpper();
  }

  lemma UpperShift()
    ensures ShiftAll(FullUpper(), -SplitZ) == PartBUpper()
  {
    var shelfZ := ShelfZ - ShelfThickness;
    GroupsShift(BraceZ, -SplitZ);
    GroupsShift(shelfZ, -SplitZ);
    GroupsShift(ShelfZ, -SplitZ);
    GroupsShift(CradleZ, -SplitZ);
    BossesShift(shelfZ, -SplitZ);
    var g1 := Braces(BraceZ) + [Shelf(shelfZ)];
    var g2 := g1 + Bosses(shelfZ);
    var g3 := g2 + Posts(ShelfZ);
    ShiftAllAppend(Braces(BraceZ), [Shelf(shelfZ)], -SplitZ);
    ShiftAllAppend(g1, Bosses(shelfZ), -SplitZ);
    ShiftAllAppend(g2, Posts(ShelfZ), -SplitZ);
    ShiftAllAppend(g3, Cradle(CradleZ), -SplitZ);
  }

  /**
   * Calls 4.. of part B (brace, shelf, bosses, posts, cradle) are calls 6..
   * of the full model moved down by SPLIT_Z.
   */
  lemma PartBIsFullShifted()
    ensures |PartB()| == 25 && |FullModel()| == 27
    ensures PartB()[4..] == ShiftAll(FullModel()[6..], -SplitZ)
  {
    Slices();
    UpperShift();
  }

  /**
   * The same on meshes: from triangle 48 on, part B's mesh is the full
   * model's mesh from triangle 72 on, translated down by SPLIT_Z.
   */
  lemma PartBMeshIsFullShifted(rim: Sampling)
    ensures |Model(PartB(), rim)| >= 48 && |Model(FullModel(), rim)| >= 72
    ensures Model(PartB(), rim)[48..] == Translate(Model(FullModel(), rim)[72..], -SplitZ)
  {
    Slices();
    UpperShift();
    CountsOfGroups(UpperLegHeight, 0.0, 0.0);
    CountsOfGroups(FloorClear, 0.0, 0.0);
    var legsB, base := Legs(UpperLegHeight, 0.0), Rails() + Legs(FloorClear, 0.0);
    assert PartB() == legsB + PartBUpper();
    ModelAppend(legsB, PartBUpper(), rim);
    ModelCount(legsB, rim);
    CountAllAppend(Rails(), Legs(FloorClear, 0.0));
    assert FullModel() == base + FullUpper();
    ModelAppend(base, FullUpper(), rim);
    ModelCount(base, rim);
    ModelShift(FullUpper(), -SplitZ, rim);
  }

  /**
   * Each full leg is cut at SPLIT_Z: part A keeps [0, SPLIT_Z] and part B's
   * upper leg, put back at SPLIT_Z, is [SPLIT_Z, FLOOR_CLEAR].
   */
  lemma LegsSplitAtSplitZ(k: nat)
    requires k < 4
    ensures PartA()[2 + k] == FullModel()[2 + k].(h := SplitZ)
    ensures Shift(PartB()[k], SplitZ) == FullModel()[2 + k].(cz := SplitZ, h := FloorClear - SplitZ)
    ensures Bottom(Shift(PartB()[k], SplitZ)) == SplitZ && Top(Shift(PartB()[k], SplitZ)) == FloorClear
  {
  }

  /** Every tenon starts on top of its lower leg, strictly inside the leg's footprint; part A is SPLIT_Z + TENON_H tall. */
  lemma TenonsSeated(k: nat)
    requires k < 4
    ensures PartA()[6 + k].Box? && PartA()[2 + k].Box?
    ensures Bottom(PartA()[6 + k]) == Top(PartA()[2 + k]) == SplitZ
    ensures StrictlyInsideFootprint(PartA()[6 + k], PartA()[2 + k])
    ensures Spans(PartA(), 0.0, SplitZ + TenonHeight) && Top(PartA()[6 + k]) == SplitZ + TenonHeight
  {
    assert PartA()[6 + k] == Tenons()[k];
    var lx, s := if k < 2 then -LegX else LegX, if k % 2 == 0 then -1.0 else 1.0;
    assert PartA()[2 + k] == Leg(lx, s, SplitZ, 0.0);
    assert Tenons()[k] == Tenon(lx, s);
    TenonOnLeg(lx, s);
    GroupsSpan(SplitZ, 0.0, 0.0);
    SpansAppend(Rails(), Legs(SplitZ, 0.0), 0.0, SplitZ + TenonHeight);
    SpansAppend(Rails() + Legs(SplitZ, 0.0), Tenons(), 0.0, SplitZ + TenonHeight);
  }

  lemma PartACount()
    ensures CountAll(PartA()) == 120
  {
    UniformCount(PartA(), 12);
  }

  lemma UpperCounts()
    ensures CountAll(FullUpper()) == 24 + 12 + 512 + 48 + 72
    ensures CountAll(PartBUpper()) == CountAll(FullUpper())
  {
    var shelfZ := ShelfZ - ShelfThickness;
    CountsOfGroups(0.0, 0.0, BraceZ);
    CountsOfGroups(0.0, 0.0, ShelfZ);
    CountsOfGroups(0.0, 0.0, CradleZ);
    BossesFacts(shelfZ);
    var g1 := Braces(BraceZ) + [Shelf(shelfZ)];
    var g2 := g1 + Bosses(shelfZ);
    var g3 := g2 + Posts(ShelfZ);
    CountAllAppend(Braces(BraceZ), [Shelf(shelfZ)]);
    CountAllAppend(g1, Bosses(shelfZ));
    CountAllAppend(g2, Posts(ShelfZ));
    CountAllAppend(g3, Cradle(CradleZ));
    UpperShift();
    ShiftKeepsCount(FullUpper(), -SplitZ);
  }

  lemma FullCount()
    ensures CountAll(FullModel()) == 740
  {
    Slices();
    UpperCounts();
    CountsOfGroups(FloorClear, 0.0, 0.0);
    CountAllAppend(Rails(), Legs(FloorClear, 0.0));
    CountAllAppend(Rails() + Legs(FloorClear, 0.0), FullUpper());
    assert FullModel() == Rails() + Legs(FloorClear, 0.0) + FullUpper();
  }

  lemma PartBCount()
    ensures CountAll(PartB()) == 716
  {
    Slices();
    UpperCounts();
    CountsOfGroups(UpperLegHeight, 0.0, 0.0);
    CountAllAppend(Legs(UpperLegHeight, 0.0), PartBUpper());
    assert PartB() == Legs(UpperLegHeight, 0.0) + PartBUpper();
  }

  /** Part A is 10 boxes (120 triangles); the full model 19 boxes and 8 16-segment cylinders (740); part B 716. */
  lemma Counts(rim: Sampling)
    ensures |Model(PartA(), rim)| == 120
    ensures |Model(FullModel(), rim)| == 740
    ensures |Model(PartB(), rim)| == 716
  {
    PartACount();
    FullCount();
    PartBCount();
    ModelCount(PartA(), rim);
    ModelCount(FullModel(), rim);
    ModelCount(PartB(), rim);
  }

  /** The heights of part B's groups, in order: upper legs, brace, shelf, bosses, posts, cradle. */
  lemma PartBGroupsSpan()
    ensures PartB()[..4] == Legs(UpperLegHeight, 0.0) && Spans(PartB()[..4], 0.0, 80.0)
    ensures Spans(PartB()[4..19], 82.5, 140.0)
    ensures PartB()[19..] == Cradle(CradleZ - SplitZ) && Spans(PartB()[19..], 145.0, 215.0)
  {
    var shelfZ := ShelfZ - ShelfThickness - SplitZ;
    var middle := Braces(BraceZ - SplitZ) + [Shelf(shelfZ)] + Bosses(shelfZ) + Posts(ShelfZ - SplitZ);
    assert PartB() == Legs(UpperLegHeight, 0.0) + middle + Cradle(CradleZ - SplitZ);
    assert PartB()[4..19] == middle;
    GroupsSpan(UpperLegHeight, 0.0, BraceZ - SplitZ);
    GroupsSpan(UpperLegHeight, 0.0, shelfZ);
    GroupsSpan(UpperLegHeight, 0.0, ShelfZ - SplitZ);
    GroupsSpan(UpperLegHeight, 0.0, CradleZ - SplitZ);
    BossesFacts(shelfZ);
    SpansWiden(Braces(BraceZ - SplitZ), 82.5, 92.5, 82.5, 140.0);
    SpansWiden([Shelf(shelfZ)], 85.0, 90.0, 82.5, 140.0);
    SpansWiden(Bosses(shelfZ), 85.0, 90.0, 82.5, 140.0);
    SpansWiden(Posts(ShelfZ - SplitZ), 90.0, 140.0, 82.5, 140.0);
    SpansAppend(Braces(BraceZ - SplitZ), [Shelf(shelfZ)], 82.5, 140.0);
    SpansAppend(Braces(BraceZ - SplitZ) + [Shelf(shelfZ)], Bosses(shelfZ), 82.5, 140.0);
    SpansAppend(Braces(BraceZ - SplitZ) + [Shelf(shelfZ)] + Bosses(shelfZ), Posts(ShelfZ - SplitZ), 82.5, 140.0);
  }

  /**
   * The reported part B height is its top: every call lies within
   * [0, PartBHeight], the cradle walls reach PartBHeight, and so does the
   * mesh.
   */
  lemma PartBHeightIsTop(rim: Sampling)
    ensures PartBHeight == 215.0
    ensures Spans(PartB(), 0.0, PartBHeight) && Top(PartB()[19]) == PartBHeight
    ensures WithinZ(Model(PartB(), rim), 0.0, PartBHeight)
  {
    PartBGroupsSpan();
    var legs, middle, cradle := PartB()[..4], PartB()[4..19], PartB()[19..];
    assert PartB() == legs + middle + cradle;
    SpansWiden(legs, 0.0, 80.0, 0.0, 215.0);
    SpansWiden(middle, 82.5, 140.0, 0.0, 215.0);
    SpansWiden(cradle, 145.0, 215.0, 0.0, 215.0);
    SpansAppend(legs, middle, 0.0, 215.0);
    SpansAppend(legs + middle, cradle, 0.0, 215.0);
    GroupsSpan(0.0, 0.0, CradleZ - SplitZ);
    ModelWithin(PartB(), 0.0, PartBHeight, rim);
  }

  /**
   * The assembled height the script reports, CRADLE_Z + WALL_H = 290, is the
   * top of the full model: every call lies within [0, 290], the cradle walls
   * reach it, and so does the mesh.
   */
  lemma FullHeight(rim: Sampling)
    ensures CradleZ + WallHeight == 290.0
    ensures Spans(FullModel(), 0.0, CradleZ + WallHeight) && Top(FullModel()[21]) == CradleZ + WallHeight
    ensures WithinZ(Model(FullModel(), rim), 0.0, CradleZ + WallHeight)
  {
    var top, shelfZ := CradleZ + WallHeight, ShelfZ - ShelfThickness;
    GroupsSpan(FloorClear, 0.0, BraceZ);
    GroupsSpan(FloorClear, 0.0, shelfZ);
    GroupsSpan(FloorClear, 0.0, ShelfZ);
    GroupsSpan(FloorClear, 0.0, CradleZ);
    BossesFacts(shelfZ);
    SpansWiden(Rails(), 0.0, 4.0, 0.0, top);
    SpansWiden(Legs(FloorClear, 0.0), 0.0, FloorClear, 0.0, top);
    SpansWiden(Braces(BraceZ), BraceZ, BraceZ + 10.0, 0.0, top);
    SpansWiden([Shelf(shelfZ)], shelfZ, ShelfZ, 0.0, top);
    SpansWiden(Bosses(shelfZ), shelfZ, ShelfZ, 0.0, top);
    SpansWiden(Posts(ShelfZ), ShelfZ, ShelfZ + CableGap, 0.0, top);
    var p1 := Rails() + Legs(FloorClear, 0.0);
    var p2 := p1 + Braces(BraceZ);
    var p3 := p2 + [Shelf(shelfZ)];
    var p4 := p3 + Bosses(shelfZ);
    var p5 := p4 + Posts(ShelfZ);
    SpansAppend(Rails(), Legs(FloorClear, 0.0), 0.0, top);
    SpansAppend(p1, Braces(BraceZ), 0.0, top);
    SpansAppend(p2, [Shelf(shelfZ)], 0.0, top);
    SpansAppend(p3, Bosses(shelfZ), 0.0, top);
    SpansAppend(p4, Posts(ShelfZ), 0.0, top);
    SpansAppend(p5, Cradle(CradleZ), 0.0, top);
    assert FullModel() == p5 + Cradle(CradleZ);
    assert FullModel()[21] == Cradle(CradleZ)[0];
    ModelWithin(FullModel(), 0.0, top, rim);
  }

  /** The full model's calls by group: rails, legs, braces, shelf, bosses, posts, cradle. */
  lemma FullGroups()
    ensures FullModel()[2..6] == Legs(FloorClear, 0.0) && FullModel()[6..8] == Braces(BraceZ)
    ensures FullModel()[8] == Shelf(ShelfZ - ShelfThickness)
    ensures FullModel()[17..21] == Posts(ShelfZ) && FullModel()[21..] == Cradle(CradleZ)
  {
    var shelfZ := ShelfZ - ShelfThickness;
    assert FullModel() == Rails() + Legs(FloorClear, 0.0) + Braces(BraceZ) + [Shelf(shelfZ)] + Bosses(shelfZ)
                          + Posts(ShelfZ) + Cradle(CradleZ);
  }

  /**
   * As written, part B's upper legs end at 80 while everything else in the
   * part starts at 82.5 or higher: the legs touch neither the brace nor the
   * shelf.  The split reproduces the full model here, whose legs end at
   * FLOOR_CLEAR = 155 below a shelf starting at 160; the second script's
   * part B is redesigned so that the legs reach the shelf.
   */
  lemma UpperLegsDetached()
    ensures forall k :: 0 <= k < 4 ==> Top(PartB()[k]) == UpperLegHeight == 80.0
    ensures Spans(PartB()[4..], 82.5, PartBHeight)
    ensures forall k :: 2 <= k < 6 ==> Top(FullModel()[k]) == FloorClear == 155.0
    ensures Bottom(FullModel()[6]) == BraceZ == 157.5 && Bottom(FullModel()[8]) == 160.0
  {
    FullGroups();
    PartBGroupsSpan();
    SpansWiden(PartB()[4..19], 82.5, 140.0, 82.5, 215.0);
    SpansWiden(PartB()[19..], 145.0, 215.0, 82.5, 215.0);
    SpansAppend(PartB()[4..19], PartB()[19..], 82.5, 215.0);
    assert PartB()[4..] == PartB()[4..19] + PartB()[19..];
  }

  /**
   * As written, the cradle starts at 145 while nothing below it in part B
   * rises above 140: the corner posts stop 5 mm short of the cradle.  The
   * split reproduces the full model here, whose posts end at 215 below a
   * cradle at CRADLE_Z = 220; the second script's part B is redesigned so
   * that the cradle rests on the posts.
   */
  lemma CradleDetached()
    ensures Spans(PartB()[..19], 0.0, 140.0)
    ensures forall k :: 19 <= k < |PartB()| ==> Bottom(PartB()[k]) == CradleZ - SplitZ == 145.0
    ensures forall k :: 17 <= k < 21 ==> Top(FullModel()[k]) == ShelfZ + CableGap == 215.0
    ensures forall k :: 21 <= k < |FullModel()| ==> Bottom(FullModel()[k]) == CradleZ == 220.0
  {
    FullGroups();
    PartBGroupsSpan();
    SpansWiden(PartB()[..4], 0.0, 80.0, 0.0, 140.0);
    SpansWiden(PartB()[4..19], 82.5, 140.0, 0.0, 140.0);
    SpansAppend(PartB()[..4], PartB()[4..19], 0.0, 140.0);
    assert PartB()[..19] == PartB()[..4] + PartB()[4..19];
    forall k | 19 <= k < |PartB()| ensures Bottom(PartB()[k]) == CradleZ - SplitZ {
      assert PartB()[k] == Cradle(CradleZ - SplitZ)[k - 19];
    }
  }
}
