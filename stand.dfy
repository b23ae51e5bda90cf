/**
 * The dimension table of the cooling stand (millimetres) and the groups of
 * primitives that both stand scripts place the same way.  Both scripts
 * define the table with the same values; the script-local names are given
 * next to each constant.
 */
module Stand {
  import opened Layout

  const SwitchWidth: real := 210.4                                // SW_W
  const SwitchThickness: real := 43.7                             // SW_T
  const FanSize: real := 80.0                                     // FAN
  const RailDepth: real := 8.0                                    // RAIL_DEPTH
  const RailOffset: real := 59.0                                  // RAIL_OFFSET
  const PlatformWidth: real := SwitchWidth + 16.0                 // PLAT_W
  const PlatformDepth: real := FanSize + 20.0                     // PLAT_D
  const FloorClear: real := 155.0                                 // FLOOR_CLEAR
  const ShelfZ: real := 165.0                                     // SHELF_Z
  const ShelfThickness: real := 5.0                               // SHELF_T
  const Wall: real := 4.0                                         // WALL
  const Clearance: real := 1.5                                    // CLR
  const SlotWidth: real := SwitchThickness + Clearance * 2.0      // SLOT_W
  const LegWidth: real := 30.0                                    // LEG_W
  const LegX: real := PlatformWidth / 2.0 - LegWidth / 2.0 - 4.0  // LEG_X
  const CableGap: real := 50.0                                    // CABLE_GAP
  const Lip: real := 10.0                                         // LIP
  const WallHeight: real := 70.0                                  // WALL_H
  const CradleZ: real := ShelfZ + ShelfThickness + CableGap       // CRADLE_Z
  const FanGap: real := 10.0                                      // FAN_GAP
  const Fan1X: real := -(FanSize / 2.0 + FanGap / 2.0)            // F1X
  const Fan2X: real := FanSize / 2.0 + FanGap / 2.0               // F2X
  const PostSize: real := 8.0                                     // POST
  const SlotLip: real := 8.0                                      // SLOT_LIP
  const SplitZ: real := 75.0                                      // SPLIT_Z
  const TenonWidth: real := LegWidth - 6.0                        // TENON_W
  const TenonDepth: real := RailDepth - 2.0                       // TENON_D
  const TenonHeight: real := 16.0                                 // TENON_H

  /** The derived constants, worked out. */
  lemma DerivedDimensions()
    ensures PlatformWidth == 226.4 && PlatformDepth == 100.0 && SlotWidth == 46.7
    ensures LegX == 94.2 && CradleZ == 220.0 && Fan1X == -45.0 && Fan2X == 45.0
    ensures TenonWidth == 24.0 && TenonDepth == 6.0
  {
  }

  // ---------------------------------------------------------------------
  // groups (each in the order of the script's nested loops)
  // ---------------------------------------------------------------------

  /** The two floor rails, `for s in [-1, 1]`. */
  function Rails(): (ps: seq<Prim>)
    ensures |ps| == 2 && forall i :: 0 <= i < |ps| ==> ps[i].Box?
  {
    [Box(PlatformWidth, RailDepth, 4.0, 0.0, -RailOffset, 0.0),
     Box(PlatformWidth, RailDepth, 4.0, 0.0, RailOffset, 0.0)]
  }

  /** A leg (or leg section) of height h from cz, at x = lx on the rail at y = s * RAIL_OFFSET. */
  function Leg(lx: real, s: real, h: real, cz: real): (p: Prim)
    ensures p.Box?
  {
    Box(LegWidth, RailDepth, h, lx, s * RailOffset, cz)
  }

  /** The four legs, `for lx in [-LEG_X, LEG_X]: for s in [-1, 1]`. */
  function Legs(h: real, cz: real): (ps: seq<Prim>)
    ensures |ps| == 4 && forall i :: 0 <= i < |ps| ==> ps[i].Box?
  {
    [Leg(-LegX, -1.0, h, cz), Leg(-LegX, 1.0, h, cz), Leg(LegX, -1.0, h, cz), Leg(LegX, 1.0, h, cz)]
  }

  /** The tenon standing on the leg at (lx, s), from SPLIT_Z up. */
  function Tenon(lx: real, s: real): (p: Prim)
    ensures p.Box?
  {
    Box(TenonWidth, TenonDepth, TenonHeight, lx, s * RailOffset, SplitZ)
  }

  /** The four tenons, in the order of the legs. */
  function Tenons(): (ps: seq<Prim>)
    ensures |ps| == 4 && forall i :: 0 <= i < |ps| ==> ps[i].Box?
  {
    [Tenon(-LegX, -1.0), Tenon(-LegX, 1.0), Tenon(LegX, -1.0), Tenon(LegX, 1.0)]
  }

  /** The two braces, `for lx in [-LEG_X, LEG_X]`, from height z. */
  function Braces(z: real): (ps: seq<Prim>)
    ensures |ps| == 2 && forall i :: 0 <= i < |ps| ==> ps[i].Box?
  {
    [Box(4.0, RailOffset * 2.0, 10.0, -LegX, 0.0, z), Box(4.0, RailOffset * 2.0, 10.0, LegX, 0.0, z)]
  }

  /** The fan shelf plate, from height z. */
  function Shelf(z: real): (p: Prim)
    ensures p.Box?
  {
    Box(PlatformWidth, PlatformDepth, ShelfThickness, 0.0, 0.0, z)
  }

  /** The corner post at (dx, dy), from height z. */
  function Post(dx: real, dy: real, z: real): (p: Prim)
    ensures p.Box?
  {
    Box(PostSize, PostSize, CableGap, dx * (SwitchWidth / 2.0), dy * (SlotWidth / 2.0 + Wall / 2.0), z)
  }

  /** The four corner posts, `for dx in [-1, 1]: for dy in [-1, 1]`. */
  function Posts(z: real): (ps: seq<Prim>)
    ensures |ps| == 4 && forall i :: 0 <= i < |ps| ==> ps[i].Box?
  {
    [Post(-1.0, -1.0, z), Post(-1.0, 1.0, z), Post(1.0, -1.0, z), Post(1.0, 1.0, z)]
  }

  /** The cradle from height z: front and back wall, front and back lip, and the two end stops. */
  function Cradle(z: real): (ps: seq<Prim>)
    ensures |ps| == 6 && forall i :: 0 <= i < |ps| ==> ps[i].Box?
  {
    [Box(SwitchWidth + 10.0, Wall, WallHeight, 0.0, -(SlotWidth / 2.0 + Wall / 2.0), z),
     Box(SwitchWidth + 10.0, Wall, WallHeight, 0.0, SlotWidth / 2.0 + Wall / 2.0, z),
     Box(SwitchWidth + 10.0, Lip, Wall, 0.0, -(SlotWidth / 2.0 - Lip / 2.0), z),
     Box(SwitchWidth + 10.0, Lip, Wall, 0.0, SlotWidth / 2.0 - Lip / 2.0, z),
     Box(Wall, SlotWidth + Wall * 2.0, SlotLip, -1.0 * (SwitchWidth / 2.0 + Clearance + Wall / 2.0), 0.0, z),
     Box(Wall, SlotWidth + Wall * 2.0, SlotLip, 1.0 * (SwitchWidth / 2.0 + Clearance + Wall / 2.0), 0.0, z)]
  }

  // ---------------------------------------------------------------------
  // facts about the groups
  // ---------------------------------------------------------------------

  /** Moving a group's base height by dz moves each of its calls by dz. */
  lemma GroupsShift(z: real, dz: real)
    ensures ShiftAll(Braces(z), dz) == Braces(z + dz)
    ensures Shift(Shelf(z), dz) == Shelf(z + dz)
    ensures ShiftAll(Posts(z), dz) == Posts(z + dz)
    ensures ShiftAll(Cradle(z), dz) == Cradle(z + dz)
  {
  }

  /** A tenon's footprint lies strictly inside the footprint of the leg it stands on. */
  predicate StrictlyInsideFootprint(inner: Prim, outer: Prim)
    requires inner.Box? && outer.Box?
  {
    && outer.cx - outer.w / 2.0 < inner.cx - inner.w / 2.0 && inner.cx + inner.w / 2.0 < outer.cx + outer.w / 2.0
    && outer.cy - outer.d / 2.0 < inner.cy - inner.d / 2.0 && inner.cy + inner.d / 2.0 < outer.cy + outer.d / 2.0
  }

  /** The tenon at (lx, s) starts on top of a lower leg of height SPLIT_Z and is 3 mm in from its sides and 1 mm in from its faces. */
  lemma TenonOnLeg(lx: real, s: real)
    ensures Bottom(Tenon(lx, s)) == Top(Leg(lx, s, SplitZ, 0.0))
    ensures StrictlyInsideFootprint(Tenon(lx, s), Leg(lx, s, SplitZ, 0.0))
    ensures Top(Tenon(lx, s)) == SplitZ + TenonHeight
  {
  }

  /** Triangles per group: every call in these groups is a box. */
  lemma CountsOfGroups(h: real, cz: real, z: real)
    ensures CountAll(Rails()) == 24
    ensures CountAll(Legs(h, cz)) == 48
    ensures CountAll(Tenons()) == 48
    ensures CountAll(Braces(z)) == 24
    ensures CountAll(Posts(z)) == 48
    ensures CountAll(Cradle(z)) == 72
  {
    UniformCount(Rails(), 12);
    UniformCount(Legs(h, cz), 12);
    UniformCount(Tenons(), 12);
    UniformCount(Braces(z), 12);
    UniformCount(Posts(z), 12);
    UniformCount(Cradle(z), 12);
  }

  /** Bottoms and tops of the groups. */
  lemma GroupsSpan(h: real, cz: real, z: real)
    requires h >= 0.0
    ensures Spans(Rails(), 0.0, 4.0)
    ensures Spans(Legs(h, cz), cz, cz + h)
    ensures Spans(Braces(z), z, z + 10.0)
    ensures Spans([Shelf(z)], z, z + ShelfThickness)
    ensures Spans(Posts(z), z, z + CableGap)
    ensures Spans(Cradle(z), z, z + WallHeight)
    ensures Top(Cradle(z)[0]) == z + WallHeight
  {
  }
}
