/** The running game: the module-level stores of script.js as the fields of one object, and the
    engine's loops as methods that update them in place. Each method that runs a whole
    operation is proved to compute the state function in Tick, Chunks or Actions that models
    it, so every lemma proved about those functions holds of the running game. */
module Engine {
  import opened Grid
  import opened Coins
  import opened Game
  import opened Tick
  import Chunks
  import Actions

  class World {
    var grid: map<Cell, Building>
    var resources: map<Cell, ResourceNode>
    var items: seq<Item>
    var generatedChunks: set<ChunkId>
    var score: int
    var upgraderPower: int
    var upgraderPowerCost: int
    var inventory: Inventory
    var nextId: nat

    /** The stores as one value. */
    function Snapshot(): State
      reads this
    {
      State(grid, resources, items, generatedChunks, score, upgraderPower, upgraderPowerCost, inventory, nextId)
    }

    /** A new game: nothing built, nothing owned, upgraders add 1 and the first upgrade costs 100. */
    constructor ()
      ensures Snapshot() == NewGame
      ensures Consistent(Snapshot())
    {
      grid := map[];
      resources := map[];
      items := [];
      generatedChunks := {};
      score := 0;
      upgraderPower := 1;
      upgraderPowerCost := 100;
      inventory := EmptyInventory;
      nextId := 0;
    }

    // -------------------------------------------------------------------------------------
    // checkAndMergeAt (script.js:676-698)

    /** Sum the values on c; when more than one item stands there, the first takes the sum and
        the rest are filtered out of the list. */
    method CheckAndMergeAt(c: Cell)
      modifies this
      ensures Snapshot() == old(Snapshot()).(items := MergeAt(old(items), c))
    {
      var count, total := SumOnCell(items, c);
      if count > 1 {
        items := FilterMerged(items, c, total);
      }
    }

    // -------------------------------------------------------------------------------------
    // runGameTick, phase 1 (script.js:579-590)

    /** Walk the list from the back; an item on a collector is added to the score and spliced
        out. */
    method CollectItems()
      modifies this
      ensures Snapshot() == CollectPhase(old(Snapshot()))
    {
      var kept, gained := Collect(items, grid);
      items := kept;
      score := score + gained;
    }

    // -------------------------------------------------------------------------------------
    // runGameTick, phase 2 (script.js:593-617)

    /** Bump each unprocessed item on an upgrader, record a one-cell move for each item on a
        conveyor or upgrader, and clear both per-tick marks of every item. */
    method PrepareItems() returns (moves: seq<Move>)
      modifies this
      ensures Snapshot() == old(Snapshot()).(items := Prepare(old(items), grid, upgraderPower))
      ensures moves == PlanMoves(old(items), grid)
    {
      var before := items;
      moves := [];
      var i := 0;
      while i < |items|
        invariant |items| == |before|
        invariant 0 <= i <= |items|
        invariant items == Prepare(before[..i], grid, upgraderPower) + before[i..]
        invariant moves == PlanMoves(before[..i], grid)
        invariant Snapshot() == old(Snapshot()).(items := items)
      {
        PrepareStep(before, grid, upgraderPower, i);
        ghost var done := Prepare(before[..i], grid, upgraderPower);
        assert items[i] == before[i];
        var x, move := PrepareOne(items[i]);
        moves := moves + move;
        items := items[i := x];
        assert items == done + [x] + before[i + 1..];
        i := i + 1;
      }
      assert before[..i] == before;
    }

    /** The loop body of phase 2 for one coin: the upgrader bump, the recorded move and the
        clearing of both marks. */
    method PrepareOne(item: Item) returns (x: Item, move: seq<Move>)
      ensures x == Prepared(item, grid, upgraderPower)
      ensures move == MoveOf(item, grid)
    {
      x := item;
      move := [];
      if x.pos in grid && (grid[x.pos].Conveyor? || grid[x.pos].Upgrader?) {
        if grid[x.pos].Upgrader? && !x.processed {
          x := x.(value := x.value + upgraderPower, processed := true);
        }
        move := [Move(x.id, Step(x.pos, grid[x.pos].direction))];
      }
      x := x.(processed := false, merged := false);
    }

    // -------------------------------------------------------------------------------------
    // runGameTick, phase 3 (script.js:620-624)

    /** `move.item.x/y = …`: set the cell of the item with this id, if it is still listed. */
    method Reposition(id: nat, dest: Cell)
      modifies this
      ensures Snapshot() == old(Snapshot()).(items := Relocate(old(items), id, dest))
    {
      var before := items;
      var k := 0;
      while k < |items|
        invariant |items| == |before|
        invariant 0 <= k <= |items|
        invariant forall t :: 0 <= t < k ==>
          items[t] == if before[t].id == id then before[t].(pos := dest) else before[t]
        invariant forall t :: k <= t < |items| ==> items[t] == before[t]
        invariant Snapshot() == old(Snapshot()).(items := items)
      {
        if items[k].id == id {
          items := items[k := items[k].(pos := dest)];
        }
        k := k + 1;
      }
    }

    /** Carry out the recorded moves in order, merging at each destination. */
    method ApplyRecordedMoves(moves: seq<Move>)
      modifies this
      ensures Snapshot() == old(Snapshot()).(items := ApplyMoves(old(items), moves))
    {
      var j := 0;
      while j < |moves|
        invariant 0 <= j <= |moves|
        invariant ApplyMoves(items, moves[j..]) == ApplyMoves(old(items), moves)
        invariant Snapshot() == old(Snapshot()).(items := items)
      {
        assert moves[j..][1..] == moves[j + 1..];
        Reposition(moves[j].id, moves[j].dest);
        CheckAndMergeAt(moves[j].dest);
        j := j + 1;
      }
    }

    // -------------------------------------------------------------------------------------
    // runGameTick, phase 4 (script.js:627-657)

    /** The neighbour scan: the first of up, down, right, left holding a conveyor or a
        collector. */
    method FindSpawnLocation(at: Cell) returns (spawn: Option<Cell>)
      ensures spawn == SpawnTarget(grid, at)
    {
      var ns := Neighbours(at);
      spawn := None;
      var k := 0;
      while k < |ns| && spawn.None?
        invariant 0 <= k <= |ns|
        invariant spawn.None? ==> forall j :: 0 <= j < k ==> !Outlet(grid, ns[j])
        invariant spawn.Some? ==> 0 < k && spawn == Some(ns[k - 1]) && Outlet(grid, ns[k - 1])
                                  && forall j :: 0 <= j < k - 1 ==> !Outlet(grid, ns[j])
      {
        var n := ns[k];
        if n in grid && (grid[n].Conveyor? || grid[n].Collector?) {
          spawn := Some(n);
        }
        k := k + 1;
      }
      match FirstOutlet(grid, ns)
      case None =>
      case Some(m) =>
        assert spawn.Some?;
    }

    /** One factory's turn: decrement the cooldown; at 0 or below spawn and merge on the first
        outlet and restart at 5, or wait at 0 when there is none. */
    method FactoryTurn(key: Cell)
      modifies this
      ensures Snapshot() == FactoryStep(old(Snapshot()), key)
    {
      if key in grid && grid[key].Factory? {
        var cooldown := grid[key].cooldown - 1;
        if cooldown > 0 {
          grid := grid[key := Factory(cooldown)];
        } else {
          var spawn := FindSpawnLocation(key);
          match spawn
          case None =>
            grid := grid[key := Factory(0)];
          case Some(n) =>
            grid := grid[key := Factory(5)];
            items := items + [Coin(nextId, n)];
            nextId := nextId + 1;
            CheckAndMergeAt(n);
        }
      }
    }

    /** Every factory, in grid order. */
    method ProcessFactories(keys: seq<Cell>)
      modifies this
      ensures Snapshot() == FactoryPhase(old(Snapshot()), keys)
    {
      var i := 0;
      while i < |keys|
        invariant 0 <= i <= |keys|
        invariant FactoryPhase(Snapshot(), keys[i..]) == FactoryPhase(old(Snapshot()), keys)
      {
        assert keys[i..][1..] == keys[i + 1..];
        FactoryTurn(keys[i]);
        i := i + 1;
      }
    }

    // -------------------------------------------------------------------------------------
    // runGameTick, phase 5 (script.js:660-665)

    /** Every generator, in grid order, adds one unit of its deposit's type. */
    method ProcessGenerators(keys: seq<Cell>)
      modifies this
      ensures Snapshot() == GeneratorPhase(old(Snapshot()), keys)
    {
      var i := 0;
      while i < |keys|
        invariant 0 <= i <= |keys|
        invariant GeneratorPhase(Snapshot(), keys[i..]) == GeneratorPhase(old(Snapshot()), keys)
      {
        assert keys[i..][1..] == keys[i + 1..];
        var key := keys[i];
        if key in grid && grid[key].Generator? {
          inventory := inventory.Credit(grid[key].resourceType);
        }
        i := i + 1;
      }
    }

    // -------------------------------------------------------------------------------------
    // runGameTick (script.js:575-671)

    /** One tick, with keys the grid's iteration order. The new state is the tick function of
        the old one, so the tick keeps the game consistent and balances score against coin
        value (Tick.TickConsistent, Tick.TickBalance, Tick.TickIncome). */
    method RunGameTick(keys: seq<Cell>)
      requires Enumerates(keys, grid)
      modifies this
      ensures Snapshot() == Tick.Tick(old(Snapshot()), keys)
      ensures old(Consistent(Snapshot())) ==> Consistent(Snapshot())
    {
      ghost var start := Snapshot();
      CollectItems();
      var moves := PrepareItems();
      ApplyRecordedMoves(moves);
      ProcessFactories(keys);
      ProcessGenerators(keys);
      if Consistent(start) {
        TickConsistent(start, keys);
      }
    }

    // -------------------------------------------------------------------------------------
    // generateChunk (script.js:261-298)

    /** First visit of chunk k: mark it and scan its 16 by 16 cells row by row, skipping the
        starting area and every cell that already holds a deposit. */
    method GenerateChunk(k: ChunkId, ironDraw: Cell -> bool, copperDraw: Cell -> bool)
      modifies this
      ensures Snapshot() == Chunks.GenerateChunk(old(Snapshot()), k, ironDraw, copperDraw)
    {
      if k in generatedChunks {
        return;
      }
      generatedChunks := generatedChunks + {k};
      ghost var orig := resources;
      var startX := k.cx * Chunks.ChunkSize;
      var startY := k.cy * Chunks.ChunkSize;
      ScanStart(orig, k, ironDraw, copperDraw);
      var y := 0;
      while y < Chunks.ChunkSize
        invariant 0 <= y <= Chunks.ChunkSize
        invariant Scanned(orig, resources, k, ironDraw, copperDraw, startY + y, startX)
        modifies this`resources
      {
        ScanRow(k, startY + y, ironDraw, copperDraw, orig);
        y := y + 1;
      }
      ScanComplete(orig, resources, k, ironDraw, copperDraw);
    }

    /** One row of the scan, left to right. */
    method ScanRow(k: ChunkId, row: int, ironDraw: Cell -> bool, copperDraw: Cell -> bool,
                   ghost orig: map<Cell, ResourceNode>)
      requires k.cy * Chunks.ChunkSize <= row < k.cy * Chunks.ChunkSize + Chunks.ChunkSize
      requires Scanned(orig, resources, k, ironDraw, copperDraw, row, k.cx * Chunks.ChunkSize)
      modifies this`resources
      ensures Scanned(orig, resources, k, ironDraw, copperDraw, row + 1, k.cx * Chunks.ChunkSize)
    {
      var startX := k.cx * Chunks.ChunkSize;
      var x := 0;
      while x < Chunks.ChunkSize
        invariant 0 <= x <= Chunks.ChunkSize
        invariant Scanned(orig, resources, k, ironDraw, copperDraw, row, startX + x)
      {
        ScanCell(Cell(startX + x, row), k, ironDraw, copperDraw, orig);
        x := x + 1;
      }
      NextRow(orig, resources, k, ironDraw, copperDraw, row);
    }

    /** The body of the scan for one cell: outside the starting area, the first draw places
        iron and otherwise the second places copper, on a cell without a deposit. */
    method ScanCell(c: Cell, k: ChunkId, ironDraw: Cell -> bool, copperDraw: Cell -> bool,
                    ghost orig: map<Cell, ResourceNode>)
      requires k.cx * Chunks.ChunkSize <= c.x < k.cx * Chunks.ChunkSize + Chunks.ChunkSize
      requires k.cy * Chunks.ChunkSize <= c.y < k.cy * Chunks.ChunkSize + Chunks.ChunkSize
      requires Scanned(orig, resources, k, ironDraw, copperDraw, c.y, c.x)
      modifies this`resources
      ensures Scanned(orig, resources, k, ironDraw, copperDraw, c.y, c.x + 1)
    {
      if !Chunks.SafeZone(c) {
        if ironDraw(c) {
          if c !in resources {
            resources := resources[c := ResourceNode(Iron)];
          }
        } else if copperDraw(c) {
          if c !in resources {
            resources := resources[c := ResourceNode(Copper)];
          }
        }
      }
      InChunk(c, k);
      ScanStep(orig, old(resources), resources, k, ironDraw, copperDraw, c);
    }

    // -------------------------------------------------------------------------------------
    // The player actions (script.js:344-414, 439-476, 479-492)

    /** A click on cell c with the selected tool. */
    method Click(tool: Actions.Tool, c: Cell) returns (outcome: Actions.Outcome)
      modifies this
      ensures (Snapshot(), outcome) == Actions.Click(old(Snapshot()), tool, c)
    {
      match tool
      case Remove =>
        if c in grid {
          var b := grid[c];
          if b.Factory? { inventory := inventory.(factory := inventory.factory + 1); }
          if b.Upgrader? { inventory := inventory.(upgrader := inventory.upgrader + 1); }
          if b.Generator? { inventory := inventory.(generator := inventory.generator + 1); }
          grid := grid - {c};
          outcome := Actions.Changed;
        } else {
          outcome := Actions.Unchanged;
        }
      case Mine =>
        if c in resources {
          inventory := inventory.Credit(resources[c].kind);
          resources := resources - {c};
          outcome := Actions.Changed;
        } else {
          outcome := Actions.Refused(Actions.NothingToMine);
        }
      case Rotate =>
        if c in grid && (grid[c].Conveyor? || grid[c].Upgrader?) {
          var b := grid[c];
          grid := grid[c := b.(direction := Rotated(b.direction))];
          outcome := Actions.Changed;
        } else {
          outcome := Actions.Refused(Actions.NotRotatable);
        }
      case Build(kind) =>
        if kind == Actions.GeneratorKind {
          if c in grid {
            outcome := Actions.Refused(Actions.CannotBuildHere);
          } else if c !in resources {
            outcome := Actions.Refused(Actions.NeedsResourceNode);
          } else if inventory.generator <= 0 {
            outcome := Actions.Refused(Actions.NoneInStock(Actions.GeneratorKind));
          } else {
            inventory := inventory.(generator := inventory.generator - 1);
            grid := grid[c := Generator(resources[c].kind)];
            outcome := Actions.Changed;
          }
        } else if c in grid || c in resources {
          outcome := Actions.Refused(Actions.CannotBuildHere);
        } else {
          outcome := PlaceOnFreeCell(kind, c);
        }
    }

    /** The factory, upgrader, conveyor and collector branch on a cell with neither building
        nor deposit. */
    method PlaceOnFreeCell(kind: Actions.BuildKind, c: Cell) returns (outcome: Actions.Outcome)
      requires kind != Actions.GeneratorKind
      requires c !in grid && c !in resources
      modifies this
      ensures (Snapshot(), outcome) == Actions.PlaceBuilding(old(Snapshot()), kind, c)
    {
      var building: Building;
      match kind {
        case FactoryKind =>
          if inventory.factory > 0 {
            inventory := inventory.(factory := inventory.factory - 1);
            building := Factory(0);
          } else {
            return Actions.Refused(Actions.NoneInStock(Actions.FactoryKind));
          }
        case UpgraderKind =>
          if inventory.upgrader > 0 {
            inventory := inventory.(upgrader := inventory.upgrader - 1);
            building := Upgrader(0);
          } else {
            return Actions.Refused(Actions.NoneInStock(Actions.UpgraderKind));
          }
        case ConveyorKind =>
          building := Conveyor(0);
        case CollectorKind =>
          building := Collector;
      }
      grid := grid[c := building];
      outcome := Actions.Changed;
    }

    /** craftItem: debit the recipe's iron and copper and credit one building when both are
        covered. */
    method CraftItem(recipe: Actions.Recipe) returns (outcome: Actions.Outcome)
      modifies this
      ensures (Snapshot(), outcome) == Actions.Craft(old(Snapshot()), recipe)
    {
      match recipe {
        case FactoryRecipe =>
          if inventory.iron >= 5 && inventory.copper >= 2 {
            inventory := inventory.(iron := inventory.iron - 5, copper := inventory.copper - 2);
            inventory := inventory.(factory := inventory.factory + 1);
            return Actions.Changed;
          }
        case UpgraderRecipe =>
          if inventory.iron >= 10 && inventory.copper >= 5 {
            inventory := inventory.(iron := inventory.iron - 10, copper := inventory.copper - 5);
            inventory := inventory.(upgrader := inventory.upgrader + 1);
            return Actions.Changed;
          }
        case GeneratorRecipe =>
          if inventory.iron >= 20 && inventory.copper >= 10 {
            inventory := inventory.(iron := inventory.iron - 20, copper := inventory.copper - 10);
            inventory := inventory.(generator := inventory.generator + 1);
            return Actions.Changed;
          }
      }
      outcome := Actions.Refused(Actions.CannotAfford(recipe));
    }

    /** buyUpgraderPower. */
    method BuyUpgraderPower() returns (outcome: Actions.Outcome)
      modifies this
      ensures (Snapshot(), outcome) == Actions.BuyUpgraderPower(old(Snapshot()))
    {
      if score >= upgraderPowerCost {
        score := score - upgraderPowerCost;
        upgraderPower := upgraderPower + 1;
        upgraderPowerCost := Actions.NextCost(upgraderPowerCost);
        outcome := Actions.Changed;
      } else {
        outcome := Actions.Refused(Actions.NotEnoughScore);
      }
    }
  }

  // ---------------------------------------------------------------------------------------
  // Placement and the factory phase together

  /** A factory is placed with cooldown 0, so the first tick after it is placed either spawns
      a coin on its first outlet and restarts it at 5, or, with no outlet, leaves it waiting
      at 0; a waiting factory spawns on the first tick that finds an outlet. */
  lemma PlacedFactorySpawnsAtOnce(s: State, c: Cell, keys: seq<Cell>)
    requires Actions.PlaceBuilding(s, Actions.FactoryKind, c).1 == Actions.Changed
    requires Enumerates(keys, Actions.PlaceBuilding(s, Actions.FactoryKind, c).0.grid)
    ensures var placed := Actions.PlaceBuilding(s, Actions.FactoryKind, c).0;
      var r := Tick.Tick(placed, keys);
      && c in r.grid
      && (SpawnTarget(placed.grid, c).Some? ==> r.grid[c] == Factory(5) && r.nextId > s.nextId)
      && (SpawnTarget(placed.grid, c).None? ==> r.grid[c] == Factory(0))
  {
    var placed := Actions.PlaceBuilding(s, Actions.FactoryKind, c).0;
    assert placed.grid[c] == Factory(0);
    TickFactoryRule(placed, keys, c);
  }

  // ---------------------------------------------------------------------------------------
  // The two passes of checkAndMergeAt and one step of the collection walk

  /** The summing pass: how many items stand on c, and their summed value. */
  method SumOnCell(s: seq<Item>, c: Cell) returns (count: nat, total: int)
    ensures count == |OnCell(s, c)| && total == Total(OnCell(s, c))
  {
    count, total := 0, 0;
    var i := 0;
    while i < |s|
      invariant 0 <= i <= |s|
      invariant count + |OnCell(s[i..], c)| == |OnCell(s, c)|
      invariant total + Total(OnCell(s[i..], c)) == Total(OnCell(s, c))
    {
      assert s[i..][1..] == s[i + 1..];
      if s[i].pos == c {
        count := count + 1;
        total := total + s[i].value;
      }
      i := i + 1;
    }
  }

  /** The filtering pass: the first item on c takes the sum, every later item on c is left
      out, every other item is kept in order. */
  method FilterMerged(s: seq<Item>, c: Cell, total: int) returns (r: seq<Item>)
    ensures r == KeepFirst(s, c, total)
  {
    var j;
    r, j := CopyUntil(s, c, total);
    if j < |s| {
      assert s[j..][1..] == s[j + 1..];
      var rest := CopyOffCell(s[j + 1..], c);
      r := r + [s[j].(value := total)] + rest;
    } else {
      assert s[j..] == [];
    }
  }
  /** The first stretch of the filtering pass: copy the items up to the first one on c. */
  method CopyUntil(s: seq<Item>, c: Cell, total: int) returns (r: seq<Item>, j: nat)
    ensures j <= |s|
    ensures KeepFirst(s, c, total) == r + KeepFirst(s[j..], c, total)
    ensures j < |s| ==> s[j].pos == c
  {
    r := [];
    j := 0;
    while j < |s| && s[j].pos != c
      invariant 0 <= j <= |s|
      invariant KeepFirst(s, c, total) == r + KeepFirst(s[j..], c, total)
    {
      assert s[j..][1..] == s[j + 1..];
      r := r + [s[j]];
      j := j + 1;
    }
  }
  /** The rest of the filtering pass: copy every item not on c. */
  method CopyOffCell(s: seq<Item>, c: Cell) returns (r: seq<Item>)
    ensures r == OffCell(s, c)
  {
    r := [];
    var j := 0;
    while j < |s|
      invariant 0 <= j <= |s|
      invariant r == OffCell(s[..j], c)
    {
      assert s[..j + 1] == s[..j] + [s[j]];
      OffCellAppend(s[..j], s[j], c);
      if s[j].pos != c {
        r := r + [s[j]];
      }
      j := j + 1;
    }
    assert s[..j] == s;
  }

  /** The collection walk over a list: from the back, each item on a collector is spliced
      out and its value gained. */
  method Collect(s: seq<Item>, g: map<Cell, Building>) returns (kept: seq<Item>, gained: int)
    ensures kept == Uncollected(s, g)
    ensures gained == Total(Collected(s, g))
  {
    kept := s;
    gained := 0;
    var i := |s|;
    while i > 0
      invariant 0 <= i <= |s|
      invariant kept == s[..i] + Uncollected(s[i..], g)
      invariant gained == Total(Collected(s[i..], g))
    {
      i := i - 1;
      CollectStep(s, g, i);
      ghost var rest := Uncollected(s[i + 1..], g);
      SpliceOut(s[..i], s[i], rest);
      assert kept == s[..i] + [s[i]] + rest;
      if s[i].pos in g && g[s[i].pos].Collector? {
        gained := gained + kept[i].value;
        kept := kept[..i] + kept[i + 1..];
        assert kept == s[..i] + Uncollected(s[i..], g);
      } else {
        assert kept == s[..i] + ([s[i]] + rest);
      }
    }
    assert s[0..] == s;
  }

  /** Stepping the forward walk of phase 2 from i to i + 1. */
  lemma PrepareStep(s: seq<Item>, g: map<Cell, Building>, power: int, i: nat)
    requires i < |s|
    ensures Prepare(s[..i + 1], g, power) == Prepare(s[..i], g, power) + [Prepared(s[i], g, power)]
    ensures PlanMoves(s[..i + 1], g) == PlanMoves(s[..i], g) + MoveOf(s[i], g)
    ensures forall p: seq<Item>, x :: |p| == i ==> (p + s[i..])[i := x] == p + [x] + s[i + 1..]
    ensures forall p: seq<Item> :: |p| == i ==> (p + s[i..])[i] == s[i]
  {
    assert s[..i + 1][..i] == s[..i];
    assert s[i..] == [s[i]] + s[i + 1..];
  }

  /** Splicing out the element at index |p|. */
  lemma SpliceOut(p: seq<Item>, x: Item, q: seq<Item>)
    ensures var s := p + [x] + q; s[|p|] == x && s[..|p|] + s[|p| + 1..] == p + q
  {
    var s := p + [x] + q;
    assert s[..|p|] == p;
    assert s[|p| + 1..] == q;
  }

  /** Stepping the backward walk from i + 1 to i. */
  lemma CollectStep(s: seq<Item>, g: map<Cell, Building>, i: nat)
    requires i < |s|
    ensures s[..i + 1] == s[..i] + [s[i]]
    ensures Uncollected(s[i..], g)
         == (if OnCollector(s[i], g) then [] else [s[i]]) + Uncollected(s[i + 1..], g)
    ensures Total(Collected(s[i..], g))
         == (if OnCollector(s[i], g) then s[i].value else 0) + Total(Collected(s[i + 1..], g))
  {
    assert s[i..][1..] == s[i + 1..];
  }

  // ---------------------------------------------------------------------------------------
  // The scan of generateChunk, cell by cell

  /** Cell c comes before the scan position (row, col): rows are scanned in increasing y,
      each row in increasing x. */
  predicate Before(c: Cell, row: int, col: int) { c.y < row || (c.y == row && c.x < col) }

  /** What the scan has done once it reaches (row, col): the original deposits are untouched,
      every added deposit is the draw of a scanned chunk cell, and every such draw is added. */
  ghost predicate Scanned(orig: map<Cell, ResourceNode>, res: map<Cell, ResourceNode>, k: ChunkId,
                          ironDraw: Cell -> bool, copperDraw: Cell -> bool, row: int, col: int)
  {
    var added := Chunks.Deposits(orig, k, ironDraw, copperDraw);
    && (forall c :: c in orig ==> c in res && res[c] == orig[c])
    && (forall c :: c in res && c !in orig ==> c in added && res[c] == added[c] && Before(c, row, col))
    && (forall c :: c in added && Before(c, row, col) ==> c in res)
  }

  lemma InChunk(c: Cell, k: ChunkId)
    ensures c in Chunks.ChunkCells(k) <==>
      && k.cx * Chunks.ChunkSize <= c.x < k.cx * Chunks.ChunkSize + Chunks.ChunkSize
      && k.cy * Chunks.ChunkSize <= c.y < k.cy * Chunks.ChunkSize + Chunks.ChunkSize
  {
    if k.cx * Chunks.ChunkSize <= c.x < k.cx * Chunks.ChunkSize + Chunks.ChunkSize
       && k.cy * Chunks.ChunkSize <= c.y < k.cy * Chunks.ChunkSize + Chunks.ChunkSize {
      assert Cell(c.x, c.y) in Chunks.ChunkCells(k);
    }
  }

  /** Nothing of the chunk has been scanned before its first cell. */
  lemma ScanStart(orig: map<Cell, ResourceNode>, k: ChunkId, ironDraw: Cell -> bool, copperDraw: Cell -> bool)
    ensures Scanned(orig, orig, k, ironDraw, copperDraw, k.cy * Chunks.ChunkSize, k.cx * Chunks.ChunkSize)
  {
    var added := Chunks.Deposits(orig, k, ironDraw, copperDraw);
    forall d | d in added
      ensures !Before(d, k.cy * Chunks.ChunkSize, k.cx * Chunks.ChunkSize)
    {
      InChunk(d, k);
    }
  }

  /** Scanning cell c adds its draw when it has no deposit yet, and moves the scan past c. */
  lemma ScanStep(orig: map<Cell, ResourceNode>, res: map<Cell, ResourceNode>, res': map<Cell, ResourceNode>,
                 k: ChunkId, ironDraw: Cell -> bool, copperDraw: Cell -> bool, c: Cell)
    requires c in Chunks.ChunkCells(k)
    requires Scanned(orig, res, k, ironDraw, copperDraw, c.y, c.x)
    requires res' == if c !in res && Chunks.Deposit(c, ironDraw, copperDraw).Some?
                     then res[c := ResourceNode(Chunks.Deposit(c, ironDraw, copperDraw).value)]
                     else res
    ensures Scanned(orig, res', k, ironDraw, copperDraw, c.y, c.x + 1)
  {
    var added := Chunks.Deposits(orig, k, ironDraw, copperDraw);
    forall d | d in added && Before(d, c.y, c.x + 1)
      ensures d in res'
    {
      if d != c {
        assert Before(d, c.y, c.x);
      }
    }
  }

  /** The end of a row is the start of the next one. */
  lemma NextRow(orig: map<Cell, ResourceNode>, res: map<Cell, ResourceNode>, k: ChunkId,
                ironDraw: Cell -> bool, copperDraw: Cell -> bool, row: int)
    requires Scanned(orig, res, k, ironDraw, copperDraw, row, k.cx * Chunks.ChunkSize + Chunks.ChunkSize)
    ensures Scanned(orig, res, k, ironDraw, copperDraw, row + 1, k.cx * Chunks.ChunkSize)
  {
    var added := Chunks.Deposits(orig, k, ironDraw, copperDraw);
    forall c | c in added && Before(c, row + 1, k.cx * Chunks.ChunkSize)
      ensures c in res
    {
      InChunk(c, k);
    }
  }

  /** After the last row every draw of the chunk has been added and nothing else. */
  lemma ScanComplete(orig: map<Cell, ResourceNode>, res: map<Cell, ResourceNode>, k: ChunkId,
                     ironDraw: Cell -> bool, copperDraw: Cell -> bool)
    requires Scanned(orig, res, k, ironDraw, copperDraw, k.cy * Chunks.ChunkSize + Chunks.ChunkSize,
                     k.cx * Chunks.ChunkSize)
    ensures res == orig + Chunks.Deposits(orig, k, ironDraw, copperDraw)
  {
    var added := Chunks.Deposits(orig, k, ironDraw, copperDraw);
    forall c | c in added
      ensures Before(c, k.cy * Chunks.ChunkSize + Chunks.ChunkSize, k.cx * Chunks.ChunkSize)
    {
      InChunk(c, k);
    }
  }
}
