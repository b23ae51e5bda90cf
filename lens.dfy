/**
 * The lens cover generator: a thin flange with a press-fit insert on top,
 * both derived from the light-slot size.  The solid-modelling kernel's box,
 * fuse and STEP writer are not modelled; the box builder's tolerance check is,
 * the fuse's success and the writer's status code are parameters, and every
 * failure path is modelled.
 */
module LensCover {

  /** The configurable dimensions, in millimetres. */
  datatype Config = Config(
    slotWidth: real,        // SLOT_WIDTH
    slotHeight: real,       // SLOT_HEIGHT
    clearance: real,        // CLEARANCE, per side
    flangeLip: real,        // FLANGE_LIP, per side
    flangeThickness: real,  // FLANGE_THICKNESS
    insertDepth: real)      // INSERT_DEPTH

  /** The values the generator is configured with. */
  function Default(): Config
  {
    Config(40.0, 10.0, 0.1, 1.0, 0.8, 2.0)
  }

  /** The slot the case modifier cuts into the case, width by height. */
  const CutterSlotWidth: real := 40.0
  const CutterSlotHeight: real := 10.0

  /** `BRepPrimAPI_MakeBox(gp_Pnt(x, y, z), dx, dy, dz)`: the box with corner (x, y, z) and extents dx, dy, dz. */
  datatype Block = Block(x: real, y: real, z: real, dx: real, dy: real, dz: real)

  function InsertWidth(c: Config): real
  {
    c.slotWidth - 2.0 * c.clearance
  }

  function InsertHeight(c: Config): real
  {
    c.slotHeight - 2.0 * c.clearance
  }

  function FlangeWidth(c: Config): real
  {
    c.slotWidth + 2.0 * c.flangeLip
  }

  function FlangeHeight(c: Config): real
  {
    c.slotHeight + 2.0 * c.flangeLip
  }

  /** The flange: centred in XY, on the plane z = 0. */
  function Flange(c: Config): Block
  {
    Block(-FlangeWidth(c) / 2.0, -FlangeHeight(c) / 2.0, 0.0, FlangeWidth(c), FlangeHeight(c), c.flangeThickness)
  }

  /** The insert body: centred in XY, from the top of the flange. */
  function Insert(c: Config): Block
  {
    Block(-InsertWidth(c) / 2.0, -InsertHeight(c) / 2.0, c.flangeThickness, InsertWidth(c), InsertHeight(c),
          c.insertDepth)
  }

  /**
   * The box builder's tolerance, Precision::Confusion() of the modelling
   * kernel: `BRepPrimAPI_MakeBox` raises Standard_DomainError for an extent
   * whose magnitude is not above it. A negative extent is flipped by the
   * kernel; it is modelled conservatively as rejected (extent > Confusion).
   */
  const Confusion: real := 0.0000001

  /** A block the box builder accepts: every extent above the tolerance. */
  predicate Buildable(b: Block)
  {
    b.dx > Confusion && b.dy > Confusion && b.dz > Confusion
  }

  /** The two boxes given to the fuse. */
  datatype Cover = Cover(flange: Block, insert: Block)

  datatype Error = BoxRejected(box: Block) | FuseFailed | WriteFailed(path: string, status: int)

  datatype Result<T> = Success(value: T) | Failure(error: Error)

  /**
   * `create_lens_cover`: the flange box is built first, then the insert box,
   * then the fuse; the first of them to fail ends the call with its error.
   */
  function CreateLensCover(c: Config, fuseDone: bool): (r: Result<Cover>)
    ensures r.Success? <==> Buildable(Flange(c)) && Buildable(Insert(c)) && fuseDone
    ensures r.Success? ==> r.value == Cover(Flange(c), Insert(c))
    ensures !Buildable(Flange(c)) ==> r == Failure(BoxRejected(Flange(c)))
    ensures Buildable(Flange(c)) && !Buildable(Insert(c)) ==> r == Failure(BoxRejected(Insert(c)))
    ensures Buildable(Flange(c)) && Buildable(Insert(c)) && !fuseDone ==> r == Failure(FuseFailed)
  {
    if !Buildable(Flange(c)) then Failure(BoxRejected(Flange(c)))
    else if !Buildable(Insert(c)) then Failure(BoxRejected(Insert(c)))
    else if fuseDone then Success(Cover(Flange(c), Insert(c)))
    else Failure(FuseFailed)
  }

  /** Both boxes are accepted exactly when the configuration leaves every extent above the tolerance. */
  lemma BoxesAccepted(c: Config)
    ensures Buildable(Flange(c)) && Buildable(Insert(c)) <==>
      && c.slotWidth + 2.0 * c.flangeLip > Confusion && c.slotHeight + 2.0 * c.flangeLip > Confusion
      && c.slotWidth - 2.0 * c.clearance > Confusion && c.slotHeight - 2.0 * c.clearance > Confusion
      && c.flangeThickness > Confusion && c.insertDepth > Confusion
  {
  }

  /** `save_step`: succeeds only when the writer reports status 1; the path written is returned. */
  function SaveStep(cover: Cover, path: string, status: int): (r: Result<string>)
    ensures r.Success? <==> status == 1
    ensures r.Success? ==> r.value == path
    ensures r.Failure? ==> r.error == WriteFailed(path, status)
  {
    if status != 1 then Failure(WriteFailed(path, status)) else Success(path)
  }

  /** `main`: build the cover, then save it; the first failure ends the run. */
  function Run(c: Config, path: string, fuseDone: bool, status: int): Result<string>
  {
    match CreateLensCover(c, fuseDone)
    case Failure(e) => Failure(e)
    case Success(cover) => SaveStep(cover, path, status)
  }

  /**
   * A run saves the file exactly when both boxes are built, the fuse is done
   * and the writer returns 1; a rejected box or a failed fuse is reported
   * before any write is attempted.
   */
  lemma RunOutcome(c: Config, path: string, fuseDone: bool, status: int)
    ensures Run(c, path, fuseDone, status).Success? <==>
      Buildable(Flange(c)) && Buildable(Insert(c)) && fuseDone && status == 1
    ensures !(Buildable(Flange(c)) && Buildable(Insert(c))) ==> Run(c, path, fuseDone, status).error.BoxRejected?
    ensures Buildable(Flange(c)) && Buildable(Insert(c)) && !fuseDone ==> Run(c, path, fuseDone, status) == Failure(FuseFailed)
    ensures Buildable(Flange(c)) && Buildable(Insert(c)) && fuseDone && status != 1 ==>
      Run(c, path, fuseDone, status) == Failure(WriteFailed(path, status))
    ensures Buildable(Flange(c)) && Buildable(Insert(c)) && fuseDone && status == 1 ==>
      Run(c, path, fuseDone, status) == Success(path)
  {
  }

  // ---------------------------------------------------------------------
  // geometry of the two boxes
  // ---------------------------------------------------------------------

  /**
   * The insert leaves `clearance` to each side of the slot
   * [-slotWidth/2, slotWidth/2] x [-slotHeight/2, slotHeight/2], and the
   * flange overhangs it by `flangeLip` on each side; both are centred.
   */
  lemma Footprints(c: Config)
    ensures var i := Insert(c);
      && i.x == -c.slotWidth / 2.0 + c.clearance && i.x + i.dx == c.slotWidth / 2.0 - c.clearance
      && i.y == -c.slotHeight / 2.0 + c.clearance && i.y + i.dy == c.slotHeight / 2.0 - c.clearance
    ensures var f := Flange(c);
      && f.x == -c.slotWidth / 2.0 - c.flangeLip && f.x + f.dx == c.slotWidth / 2.0 + c.flangeLip
      && f.y == -c.slotHeight / 2.0 - c.flangeLip && f.y + f.dy == c.slotHeight / 2.0 + c.flangeLip
  {
  }

  /** The flange spans z in [0, thickness] and the insert sits on it, up to thickness + depth. */
  lemma Stacking(c: Config)
    ensures Flange(c).z == 0.0 && Flange(c).z + Flange(c).dz == c.flangeThickness
    ensures Insert(c).z == Flange(c).z + Flange(c).dz
    ensures Insert(c).z + Insert(c).dz == c.flangeThickness + c.insertDepth
  {
  }

  /** The XY footprint of `inner` lies strictly inside that of `outer`. */
  predicate StrictlyInside(inner: Block, outer: Block)
  {
    && outer.x < inner.x && inner.x + inner.dx < outer.x + outer.dx
    && outer.y < inner.y && inner.y + inner.dy < outer.y + outer.dy
  }

  /** The insert's footprint is strictly inside the flange's exactly when clearance + lip > 0. */
  lemma InsertInsideFlange(c: Config)
    ensures StrictlyInside(Insert(c), Flange(c)) <==> c.clearance + c.flangeLip > 0.0
  {
    Footprints(c);
  }

  /**
   * The configured cover: insert 39.8 x 9.8 x 2, flange 42 x 12 x 0.8, total
   * depth 2.8, both boxes accepted by the builder, for the 40 x 10 slot the
   * case modifier cuts.
   */
  lemma DefaultCover()
    ensures var c := Default();
      && InsertWidth(c) == 39.8 && InsertHeight(c) == 9.8
      && FlangeWidth(c) == 42.0 && FlangeHeight(c) == 12.0
      && Insert(c).z + Insert(c).dz == 2.8
      && StrictlyInside(Insert(c), Flange(c))
      && Buildable(Flange(c)) && Buildable(Insert(c))
      && c.slotWidth == CutterSlotWidth && c.slotHeight == CutterSlotHeight
  {
    InsertInsideFlange(Default());
  }
}
