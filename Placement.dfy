/**
 * One tick of the held place/destroy action (`destroyOrPlaceBlock`): which
 * cell, if any, it writes and with which block name. The world is a map from
 * cells to block names; the raycast is an input.
 */
module Placement {
  import opened Wrappers

  datatype Cell = Cell(x: int, y: int, z: int)

  /** Coordinate `i` of a cell: 0 is x, 1 is y, 2 is z. */
  function Coord(p: Cell, i: nat): int
    requires i < 3
  {
    if i == 0 then p.x else if i == 1 then p.y else p.z
  }

  /** What the raycast reports: the struck cell and the struck face, as a
      string such as "x+" or "y-". The face string may be empty. */
  datatype Hit = Hit(cell: Cell, axis: string)

  /** The player's bounding box after rounding outward to whole cells:
      `min` floored, `max` ceiled. */
  datatype Box = Box(min: Cell, max: Cell)

  /** The player's bounding box as the entity reports it. */
  datatype RealBox = RealBox(minX: real, minY: real, minZ: real, maxX: real, maxY: real, maxZ: real)

  const Air: string := "air"

  function Ceil(r: real): int {
    -((-r).Floor)
  }

  /** `box.min.map(Math.floor)` and `box.max.map(Math.ceil)`. */
  function RoundOut(b: RealBox): Box {
    Box(Cell(b.minX.Floor, b.minY.Floor, b.minZ.Floor), Cell(Ceil(b.maxX), Ceil(b.maxY), Ceil(b.maxZ)))
  }

  /** `"xyz".indexOf(axis[0])`: the coordinate the face is normal to, or -1. */
  function AxisIndex(axis: string): (i: int)
    requires axis != ""
    ensures -1 <= i < 3
    ensures i == -1 <==> axis[0] !in "xyz"
    ensures 0 <= i ==> "xyz"[i] == axis[0]
  {
    if axis[0] == 'x' then 0 else if axis[0] == 'y' then 1 else if axis[0] == 'z' then 2 else -1
  }

  /** `axis[1] === '-' ? -1 : 1`; a one-character face string reads as '+'. */
  function AxisStep(axis: string): int {
    if |axis| > 1 && axis[1] == '-' then -1 else 1
  }

  /** The cell a place tick targets: the struck cell moved one step out of
      the struck face. When the face letter is not x, y or z the source
      writes the offset to index -1 of the position array, which the
      coordinates never read, so the target is the struck cell itself. */
  function PlacementCell(hit: Hit): (p: Cell)
    requires hit.axis != ""
    ensures hit.axis[0] in "xyz" ==>
      var i := AxisIndex(hit.axis);
      && Coord(p, i) == Coord(hit.cell, i) + AxisStep(hit.axis)
      && forall j :: 0 <= j < 3 && j != i ==> Coord(p, j) == Coord(hit.cell, j)
    ensures hit.axis[0] in "xyz" ==> p != hit.cell
    ensures hit.axis[0] !in "xyz" ==> p == hit.cell
  {
    var c, d := hit.cell, AxisStep(hit.axis);
    match AxisIndex(hit.axis)
    case 0 => c.(x := c.x + d)
    case 1 => c.(y := c.y + d)
    case 2 => c.(z := c.z + d)
    case _ => c
  }

  /** The half-open containment test of the placement guard. */
  predicate InsideBox(p: Cell, box: Box) {
    && box.min.x <= p.x < box.max.x
    && box.min.y <= p.y < box.max.y
    && box.min.z <= p.z < box.max.z
  }

  /** The unit cube of cell `p` and the player's real box share interior. */
  predicate CubeOverlaps(p: Cell, b: RealBox) {
    && b.minX < (p.x + 1) as real && (p.x as real) < b.maxX
    && b.minY < (p.y + 1) as real && (p.y as real) < b.maxY
    && b.minZ < (p.z + 1) as real && (p.z as real) < b.maxZ
  }

  lemma RoundedAxis(p: int, lo: real, hi: real)
    ensures (lo.Floor <= p && p < Ceil(hi)) <==> (lo < (p + 1) as real && (p as real) < hi)
  {
  }

  /** The rounded-box guard rejects exactly the cells whose block would
      overlap the player's own volume. */
  lemma GuardIsOverlap(p: Cell, b: RealBox)
    ensures InsideBox(p, RoundOut(b)) <==> CubeOverlaps(p, b)
  {
    RoundedAxis(p.x, b.minX, b.maxX);
    RoundedAxis(p.y, b.minY, b.maxY);
    RoundedAxis(p.z, b.minZ, b.maxZ);
  }

  /** A world write: `world.setBlock(...cell, name)`. */
  datatype Write = Write(cell: Cell, name: string)

  /** The write one tick performs, if any. Place wins when both intents are
      armed; a place is dropped when the target lies in the player's box or
      the held item is air; a destroy writes air at the struck cell itself,
      with no box check. */
  function TickWrite(placeArmed: bool, destroyArmed: bool, ray: Option<Hit>, box: Box, item: string): (w: Option<Write>)
    ensures ray.None? || ray.value.axis == "" || (!placeArmed && !destroyArmed) ==> w.None?
    ensures w.Some? && placeArmed ==>
      w.value.cell == PlacementCell(ray.value) && !InsideBox(w.value.cell, box) && w.value.name == item != Air
    ensures w.Some? && !placeArmed ==> destroyArmed && w.value == Write(ray.value.cell, Air)
    ensures ray.Some? && ray.value.axis != "" && placeArmed ==>
      (w.Some? <==> !InsideBox(PlacementCell(ray.value), box) && item != Air)
    ensures ray.Some? && ray.value.axis != "" && !placeArmed && destroyArmed ==> w.Some?
  {
    if ray.None? || ray.value.axis == "" then None
    else if placeArmed then
      var p := PlacementCell(ray.value);
      if InsideBox(p, box) || item == Air then None else Some(Write(p, item))
    else if destroyArmed then Some(Write(ray.value.cell, Air))
    else None
  }

  /** The world after a write. */
  function ApplyWrite(world: map<Cell, string>, w: Option<Write>): (world': map<Cell, string>)
    ensures w.None? ==> world' == world
    ensures w.Some? ==> w.value.cell in world' && world'[w.value.cell] == w.value.name
    ensures forall c :: (w.None? || c != w.value.cell) ==> (c in world <==> c in world') && (c in world ==> world'[c] == world[c])
  {
    match w
    case None => world
    case Some(Write(c, n)) => world[c := n]
  }

  /** A destroy tick does not depend on where the player stands. */
  lemma DestroyIgnoresBox(ray: Option<Hit>, box1: Box, box2: Box, item1: string, item2: string)
    ensures TickWrite(false, true, ray, box1, item1) == TickWrite(false, true, ray, box2, item2)
  {
  }

  /** Placing while standing on the struck block: the new block would sit in
      the player's feet, so nothing is written; a place beside the player
      goes through. */
  lemma PlaceGuardExamples()
    ensures var box := Box(Cell(0, 0, 0), Cell(1, 1, 2));
      && InsideBox(Cell(0, 0, 1), box)
      && !InsideBox(Cell(2, 0, 0), box)
      && TickWrite(true, false, Some(Hit(Cell(0, -1, 0), "y+")), box, "stone").None?
      && TickWrite(true, false, Some(Hit(Cell(1, 0, 0), "x+")), box, "stone") == Some(Write(Cell(2, 0, 0), "stone"))
      && TickWrite(true, true, Some(Hit(Cell(1, 0, 0), "x+")), box, "stone") == Some(Write(Cell(2, 0, 0), "stone"))
  {
    assert "y+"[0] == 'y';
    assert "x+"[0] == 'x';
  }
}
