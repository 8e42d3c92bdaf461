/** The player's actions: the canvas click with a remove, mine, rotate or build tool, crafting,
    and buying upgrader power. A refused action changes nothing and reports why. */
module Actions {
  import opened Grid
  import opened Game

  datatype BuildKind = FactoryKind | UpgraderKind | ConveyorKind | CollectorKind | GeneratorKind

  /** The tool selected in the build menu when the canvas is clicked. */
  datatype Tool = Remove | Mine | Rotate | Build(kind: BuildKind)

  datatype Recipe = FactoryRecipe | UpgraderRecipe | GeneratorRecipe

  /** The advisory messages of the source, as values. */
  datatype Failure =
    | NothingToMine
    | NotRotatable
    | CannotBuildHere
    | NeedsResourceNode
    | NoneInStock(kind: BuildKind)
    | CannotAfford(recipe: Recipe)
    | NotEnoughScore

  /** Changed: the state was updated (the source then refreshes and saves); Unchanged: the
      action did nothing and said nothing; Refused: nothing changed and a message was shown. */
  datatype Outcome = Changed | Unchanged | Refused(reason: Failure)

  // ---------------------------------------------------------------------------------------
  // Inventory stock of buildings

  /** Factories, upgraders and generators are held in the inventory; conveyors and collectors
      are free and unlimited. */
  predicate Stocked(kind: BuildKind) { kind == FactoryKind || kind == UpgraderKind || kind == GeneratorKind }

  function Stock(inv: Inventory, kind: BuildKind): int
  {
    match kind
    case FactoryKind => inv.factory
    case UpgraderKind => inv.upgrader
    case GeneratorKind => inv.generator
    case _ => 0
  }

  /** The inventory with the stock of kind moved by delta; free kinds are not counted. */
  function Restock(inv: Inventory, kind: BuildKind, delta: int): (r: Inventory)
    ensures Stocked(kind) ==> Stock(r, kind) == Stock(inv, kind) + delta
    ensures forall k :: k != kind ==> Stock(r, k) == Stock(inv, k)
    ensures r.iron == inv.iron && r.copper == inv.copper
    ensures !Stocked(kind) ==> r == inv
  {
    match kind
    case FactoryKind => inv.(factory := inv.factory + delta)
    case UpgraderKind => inv.(upgrader := inv.upgrader + delta)
    case GeneratorKind => inv.(generator := inv.generator + delta)
    case _ => inv
  }

  /** The kind of a placed building. */
  function KindOf(b: Building): BuildKind
  {
    match b
    case Factory(_) => FactoryKind
    case Upgrader(_) => UpgraderKind
    case Conveyor(_) => ConveyorKind
    case Collector => CollectorKind
    case Generator(_) => GeneratorKind
  }

  // ---------------------------------------------------------------------------------------
  // The canvas click (script.js:344-414)

  /** Remove: delete the building; a factory, upgrader or generator goes back to the inventory,
      a conveyor or collector is lost. An empty cell is left alone without a message. */
  function RemoveAt(s: State, c: Cell): (r: (State, Outcome))
    ensures c !in s.grid ==> r == (s, Unchanged)
    ensures c in s.grid ==>
      && r.1 == Changed
      && r.0 == s.(grid := s.grid - {c}, inventory := r.0.inventory)
      && r.0.inventory == Restock(s.inventory, KindOf(s.grid[c]), 1)
  {
    if c in s.grid then
      var b := s.grid[c];
      var inv := if b.Factory? then s.inventory.(factory := s.inventory.factory + 1)
                 else if b.Upgrader? then s.inventory.(upgrader := s.inventory.upgrader + 1)
                 else if b.Generator? then s.inventory.(generator := s.inventory.generator + 1)
                 else s.inventory;
      (s.(grid := s.grid - {c}, inventory := inv), Changed)
    else (s, Unchanged)
  }

  /** Mine: the deposit's type count goes up by one and the deposit disappears. */
  function MineAt(s: State, c: Cell): (r: (State, Outcome))
    ensures c !in s.resources ==> r == (s, Refused(NothingToMine))
    ensures c in s.resources ==>
      && r.1 == Changed
      && r.0 == s.(resources := s.resources - {c}, inventory := r.0.inventory)
      && r.0.inventory.Amount(s.resources[c].kind) == s.inventory.Amount(s.resources[c].kind) + 1
      && (forall t :: t != s.resources[c].kind ==> r.0.inventory.Amount(t) == s.inventory.Amount(t))
      && (forall k :: Stock(r.0.inventory, k) == Stock(s.inventory, k))
  {
    if c in s.resources then
      (s.(inventory := s.inventory.Credit(s.resources[c].kind), resources := s.resources - {c}), Changed)
    else (s, Refused(NothingToMine))
  }

  /** Rotate: a conveyor or upgrader turns a quarter clockwise; anything else is refused. */
  function RotateAt(s: State, c: Cell): (r: (State, Outcome))
    ensures !(c in s.grid && s.grid[c].Carries()) ==> r == (s, Refused(NotRotatable))
    ensures c in s.grid && s.grid[c].Carries() ==>
      && r.1 == Changed
      && r.0 == s.(grid := r.0.grid)
      && r.0.grid.Keys == s.grid.Keys
      && (forall d :: d in s.grid && d != c ==> r.0.grid[d] == s.grid[d])
      && r.0.grid[c].Carries() && KindOf(r.0.grid[c]) == KindOf(s.grid[c])
      && r.0.grid[c].direction == (s.grid[c].direction + 1) % 4
  {
    if c in s.grid && (s.grid[c].Conveyor? || s.grid[c].Upgrader?) then
      var b := s.grid[c];
      (s.(grid := s.grid[c := b.(direction := Rotated(b.direction))]), Changed)
    else (s, Refused(NotRotatable))
  }

  /** Build a generator: the cell must have no building but a deposit, and a generator must be
      in stock; the generator takes the deposit's type and the deposit stays where it is. */
  function PlaceGenerator(s: State, c: Cell): (r: (State, Outcome))
    ensures r.1 == Changed <==> c !in s.grid && c in s.resources && s.inventory.generator > 0
    ensures r.1 != Changed ==> r.0 == s
    ensures r.1 == Changed ==>
      && r.0 == s.(grid := s.grid[c := Generator(s.resources[c].kind)], inventory := r.0.inventory)
      && r.0.inventory == Restock(s.inventory, GeneratorKind, -1)
      && r.0.resources == s.resources
  {
    if c in s.grid then (s, Refused(CannotBuildHere))
    else if c !in s.resources then (s, Refused(NeedsResourceNode))
    else if s.inventory.generator <= 0 then (s, Refused(NoneInStock(GeneratorKind)))
    else (s.(inventory := s.inventory.(generator := s.inventory.generator - 1),
             grid := s.grid[c := Generator(s.resources[c].kind)]), Changed)
  }

  /** The building a successful placement puts down: a factory ready to spawn at once, an
      upgrader or conveyor pointing up, a collector. */
  function Fresh(kind: BuildKind): Building
    requires kind != GeneratorKind
  {
    match kind
    case FactoryKind => Factory(0)
    case UpgraderKind => Upgrader(0)
    case ConveyorKind => Conveyor(0)
    case CollectorKind => Collector
  }

  /** Build a factory, upgrader, conveyor or collector: only on a cell with neither building
      nor deposit; a factory or upgrader must be in stock and one is used up, conveyors and
      collectors cost nothing. */
  function PlaceBuilding(s: State, kind: BuildKind, c: Cell): (r: (State, Outcome))
    requires kind != GeneratorKind
    ensures (c in s.grid || c in s.resources) ==> r == (s, Refused(CannotBuildHere))
    ensures r.1 == Changed <==>
      c !in s.grid && c !in s.resources && (!Stocked(kind) || Stock(s.inventory, kind) > 0)
    ensures r.1 != Changed ==> r.0 == s
    ensures r.1 == Changed ==>
      && r.0 == s.(grid := s.grid[c := Fresh(kind)], inventory := r.0.inventory)
      && r.0.inventory == Restock(s.inventory, kind, -1)
  {
    if c in s.grid || c in s.resources then (s, Refused(CannotBuildHere))
    else match kind
      case FactoryKind =>
        if s.inventory.factory > 0
        then (s.(inventory := s.inventory.(factory := s.inventory.factory - 1),
                 grid := s.grid[c := Factory(0)]), Changed)
        else (s, Refused(NoneInStock(FactoryKind)))
      case UpgraderKind =>
        if s.inventory.upgrader > 0
        then (s.(inventory := s.inventory.(upgrader := s.inventory.upgrader - 1),
                 grid := s.grid[c := Upgrader(0)]), Changed)
        else (s, Refused(NoneInStock(UpgraderKind)))
      case ConveyorKind => (s.(grid := s.grid[c := Conveyor(0)]), Changed)
      case CollectorKind => (s.(grid := s.grid[c := Collector]), Changed)
  }

  /** One click on cell c with the selected tool. */
  function Click(s: State, tool: Tool, c: Cell): (State, Outcome)
  {
    match tool
    case Remove => RemoveAt(s, c)
    case Mine => MineAt(s, c)
    case Rotate => RotateAt(s, c)
    case Build(kind) => if kind == GeneratorKind then PlaceGenerator(s, c) else PlaceBuilding(s, kind, c)
  }

  /** Placing a building and removing it again restores the state exactly: a stocked building
      goes back to the inventory, a free one was never charged. */
  lemma PlaceThenRemove(s: State, kind: BuildKind, c: Cell)
    requires Click(s, Build(kind), c).1 == Changed
    ensures Click(Click(s, Build(kind), c).0, Remove, c) == (s, Changed)
  {
    var placed := Click(s, Build(kind), c).0;
    assert c !in s.grid;
    assert placed.grid - {c} == s.grid;
    assert KindOf(placed.grid[c]) == kind by {
      if kind == GeneratorKind {
      } else {
        assert placed.grid[c] == Fresh(kind);
      }
    }
    assert Restock(Restock(s.inventory, kind, -1), kind, 1) == s.inventory;
  }

  /** Four rotations leave the state as it was. */
  lemma {:induction false} RotateFourTimes(s: State, c: Cell)
    requires c in s.grid && s.grid[c].Carries()
    ensures var once := RotateAt(s, c).0;
      var twice := RotateAt(once, c).0;
      var thrice := RotateAt(twice, c).0;
      RotateAt(thrice, c).0 == s
  {
    var b := s.grid[c];
    var once := RotateAt(s, c).0;
    var twice := RotateAt(once, c).0;
    var thrice := RotateAt(twice, c).0;
    var last := RotateAt(thrice, c).0;
    RotatedFourTimes(b.direction);
    assert last.grid[c] == b;
    assert last.grid == s.grid;
  }

  /** A deposit can be mined once: mining the same cell again is refused. */
  lemma MineTwice(s: State, c: Cell)
    requires c in s.resources
    ensures var once := MineAt(s, c).0; MineAt(once, c) == (once, Refused(NothingToMine))
  {
  }

  /** Every click keeps the state consistent: a stock is only spent when it is positive. */
  lemma ClickConsistent(s: State, tool: Tool, c: Cell)
    requires Consistent(s)
    ensures Consistent(Click(s, tool, c).0)
  {
    var r := Click(s, tool, c).0;
    assert r.items == s.items && r.nextId == s.nextId;
    assert r.score == s.score && r.power == s.power && r.cost == s.cost;
    assert r.inventory.NonNegative();
    ConsistentFrame(s, r);
  }

  // ---------------------------------------------------------------------------------------
  // Crafting (script.js:439-476)

  datatype Price = Price(iron: nat, copper: nat)

  /** The recipe table: factory 5 iron and 2 copper, upgrader 10 and 5, generator 20 and 10. */
  function PriceOf(recipe: Recipe): Price
  {
    match recipe
    case FactoryRecipe => Price(5, 2)
    case UpgraderRecipe => Price(10, 5)
    case GeneratorRecipe => Price(20, 10)
  }

  function Product(recipe: Recipe): BuildKind
  {
    match recipe
    case FactoryRecipe => FactoryKind
    case UpgraderRecipe => UpgraderKind
    case GeneratorRecipe => GeneratorKind
  }

  /** craftItem: when both prices are covered, debit them and credit one building; otherwise
      refuse and leave the inventory alone. */
  function Craft(s: State, recipe: Recipe): (r: (State, Outcome))
    ensures var p := PriceOf(recipe);
      r.1 == Changed <==> s.inventory.iron >= p.iron && s.inventory.copper >= p.copper
    ensures r.1 != Changed ==> r == (s, Refused(CannotAfford(recipe)))
    ensures r.1 == Changed ==>
      && r.0 == s.(inventory := r.0.inventory)
      && r.0.inventory.iron == s.inventory.iron - PriceOf(recipe).iron
      && r.0.inventory.copper == s.inventory.copper - PriceOf(recipe).copper
      && Stock(r.0.inventory, Product(recipe)) == Stock(s.inventory, Product(recipe)) + 1
      && (forall k :: k != Product(recipe) ==> Stock(r.0.inventory, k) == Stock(s.inventory, k))
    ensures Consistent(s) ==> Consistent(r.0)
  {
    var inv := s.inventory;
    match recipe
    case FactoryRecipe =>
      if inv.iron >= 5 && inv.copper >= 2
      then (s.(inventory := inv.(iron := inv.iron - 5, copper := inv.copper - 2, factory := inv.factory + 1)), Changed)
      else (s, Refused(CannotAfford(recipe)))
    case UpgraderRecipe =>
      if inv.iron >= 10 && inv.copper >= 5
      then (s.(inventory := inv.(iron := inv.iron - 10, copper := inv.copper - 5, upgrader := inv.upgrader + 1)), Changed)
      else (s, Refused(CannotAfford(recipe)))
    case GeneratorRecipe =>
      if inv.iron >= 20 && inv.copper >= 10
      then (s.(inventory := inv.(iron := inv.iron - 20, copper := inv.copper - 10, generator := inv.generator + 1)), Changed)
      else (s, Refused(CannotAfford(recipe)))
  }

  // ---------------------------------------------------------------------------------------
  // The shop (script.js:479-492)

  /** The next price: Math.floor(cost * 1.5), exact for every integer cost. */
  function NextCost(cost: int): (r: int)
    ensures 2 * r <= 3 * cost < 2 * r + 2
    ensures cost >= 1 ==> r >= cost
  {
    cost + cost / 2
  }

  /** The price schedule from a new game: 100, then 150, then 225. */
  lemma CostSchedule()
    ensures NextCost(100) == 150 && NextCost(NextCost(100)) == 225
  {
  }

  /** buyUpgraderPower: only when the score covers the price; the price is paid, upgraders add
      one more, and the price grows by half. The score can never go negative this way. */
  function BuyUpgraderPower(s: State): (r: (State, Outcome))
    ensures r.1 == Changed <==> s.score >= s.cost
    ensures r.1 != Changed ==> r == (s, Refused(NotEnoughScore))
    ensures r.1 == Changed ==>
      r.0 == s.(score := s.score - s.cost, power := s.power + 1, cost := NextCost(s.cost))
    ensures s.score >= 0 ==> r.0.score >= 0
    ensures Consistent(s) ==> Consistent(r.0)
  {
    if s.score >= s.cost
    then (s.(score := s.score - s.cost, power := s.power + 1, cost := NextCost(s.cost)), Changed)
    else (s, Refused(NotEnoughScore))
  }
}
