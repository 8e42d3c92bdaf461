/** Cells, buildings, resource nodes and the player's inventory: the value types the engine keeps
    in its stores. The source keys its maps by the string "x,y"; that encoding is injective on
    integer pairs, so a cell here is the pair itself. */
module Grid {

  datatype Option<T> = None | Some(value: T)

  datatype Cell = Cell(x: int, y: int)

  function Abs(n: int): nat { if n < 0 then -n else n }

  /** Manhattan distance between two cells. */
  function Distance(a: Cell, b: Cell): nat { Abs(a.x - b.x) + Abs(a.y - b.y) }

  /** A direction as stored on conveyors and upgraders: 0 up, 1 right, 2 down, 3 left. */
  type Dir = d: int | 0 <= d < 4

  /** The cell one step from c in direction d (the y axis grows downwards). */
  function Step(c: Cell, d: Dir): (n: Cell)
    ensures Distance(c, n) == 1
    ensures (d == 0 || d == 2) <==> n.x == c.x
    ensures d == 0 ==> n.y < c.y
    ensures d == 1 ==> n.x > c.x
    ensures d == 2 ==> n.y > c.y
    ensures d == 3 ==> n.x < c.x
  {
    if d == 0 then Cell(c.x, c.y - 1)
    else if d == 1 then Cell(c.x + 1, c.y)
    else if d == 2 then Cell(c.x, c.y + 1)
    else Cell(c.x - 1, c.y)
  }

  /** The direction a rotate click turns to: a quarter turn clockwise. */
  function Rotated(d: Dir): (r: Dir)
    ensures r != d
  {
    (d + 1) % 4
  }

  /** Four quarter turns bring a building back to where it pointed. */
  lemma RotatedFourTimes(d: Dir)
    ensures Rotated(Rotated(Rotated(Rotated(d)))) == d
  {
  }

  datatype ResourceType = Iron | Copper

  /** A minable deposit. (Its colour is a rendering constant of its type and is not kept.) */
  datatype ResourceNode = ResourceNode(kind: ResourceType)

  datatype Building =
    | Factory(cooldown: int)
    | Upgrader(direction: Dir)
    | Conveyor(direction: Dir)
    | Collector
    | Generator(resourceType: ResourceType)
  {
    /** Conveyors and upgraders move the item standing on them one cell per tick. */
    predicate Carries() { Conveyor? || Upgrader? }

    /** Factories only spawn onto conveyors and collectors. */
    predicate Receives() { Conveyor? || Collector? }
  }

  datatype Inventory = Inventory(iron: int, copper: int, factory: int, upgrader: int, generator: int)
  {
    predicate NonNegative() {
      iron >= 0 && copper >= 0 && factory >= 0 && upgrader >= 0 && generator >= 0
    }

    function Amount(t: ResourceType): int { if t == Iron then iron else copper }

    /** `player.inventory[t]++` for a resource type t. */
    function Credit(t: ResourceType): (r: Inventory)
      ensures r.Amount(t) == Amount(t) + 1
      ensures forall u :: u != t ==> r.Amount(u) == Amount(u)
      ensures r.factory == factory && r.upgrader == upgrader && r.generator == generator
      ensures NonNegative() ==> r.NonNegative()
    {
      if t == Iron then this.(iron := iron + 1) else this.(copper := copper + 1)
    }
  }

  const EmptyInventory := Inventory(0, 0, 0, 0, 0)
}
