/** The whole game state as one value: the stores the engine and the player actions update. */
module Game {
  import opened Grid
  import opened Coins

  datatype ChunkId = ChunkId(cx: int, cy: int)

  /** grid: cell to building; resources: cell to deposit; items: coins in list order;
      chunks: the chunks already generated; power and cost: upgraderPower and
      upgraderPowerCost; nextId: the next fresh coin id. */
  datatype State = State(
    grid: map<Cell, Building>,
    resources: map<Cell, ResourceNode>,
    items: seq<Item>,
    chunks: set<ChunkId>,
    score: int,
    power: int,
    cost: int,
    inventory: Inventory,
    nextId: nat)

  /** The starting state of a new game. */
  const NewGame := State(map[], map[], [], {}, 0, 1, 100, EmptyInventory, 0)

  /** What every tick and every action keeps true: coins have distinct ids below nextId,
      positive values and no per-tick mark set; score, counts and prices are never negative. */
  predicate Consistent(s: State)
  {
    && UniqueIds(s.items)
    && (forall x :: x in s.items ==> x.id < s.nextId && x.value >= 1)
    && Unmarked(s.items)
    && s.score >= 0
    && s.power >= 1
    && s.cost >= 1
    && s.inventory.NonNegative()
  }

  /** A step that leaves the coins, the ids, the score and the prices alone and keeps every
      count non-negative keeps the state consistent. */
  lemma ConsistentFrame(s: State, r: State)
    requires Consistent(s)
    requires r.items == s.items && r.nextId == s.nextId
    requires r.score == s.score && r.power == s.power && r.cost == s.cost
    requires r.inventory.NonNegative()
    ensures Consistent(r)
  {
  }

  lemma NewGameConsistent()
    ensures Consistent(NewGame)
  {
  }
}
