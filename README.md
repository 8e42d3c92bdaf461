# Coin factory engine, modelled in Dafny

Coin factory is a browser game played on an unbounded grid of cells:

- The player mines iron and copper deposits.
- Crafting turns them into factories, upgraders and generators. Conveyors and collectors are free to place.
- Factories spawn coins of value 1. Conveyors and upgraders carry coins one cell per tick, and an upgrader adds the current upgrader power to every coin it carries.
- Coins that land on one cell merge into a single coin. A coin that reaches a collector is turned into score.
- Generators built on a deposit yield one unit of its resource per tick.
- Score buys upgrader power, and each purchase raises the price by half.
- The world's deposits are generated lazily, one 16 by 16 chunk at a time.

This project models the engine of `script.js`:

- the per-tick transition `runGameTick`;
- the merge rule `checkAndMergeAt`;
- chunk generation `generateChunk`;
- the player actions: the canvas click with the remove, mine, rotate and build tools, `craftItem` and `buyUpgraderPower`.

The project has seven files:

- `grid.dfy` (module `Grid`): cells, directions and the one-cell step, buildings, deposits and the inventory.
- `coins.dfy` (module `Coins`): coins with an identity (`id`), list value (`Total`), and the merge rule `MergeAt` with its properties.
- `state.dfy` (module `Game`): the whole game state as one value, the new game, and the invariant `Consistent`. Under `Consistent`, coin ids are distinct, values positive, no coin carries a per-tick mark, and score, counts and prices are never negative.
- `tick.dfy` (module `Tick`): the five phases of a tick as state functions, and what each one guarantees.
- `chunks.dfy` (module `Chunks`): the chunk a cell belongs to, the starting safe zone, and chunk generation with its guarantees.
- `actions.dfy` (module `Actions`): the player actions as state functions returning an `Outcome`. An outcome is changed, unchanged, or refused with a reason, and a refusal changes nothing.
- `engine.dfy` (module `Engine`): `class World`. Its fields are the game's stores: `grid`, `resources`, `items`, `generatedChunks`, `score`, `upgraderPower`, `upgraderPowerCost`, `inventory` and the next fresh coin id. Its methods are the source's loops, updating those fields in place. Each method that runs a whole operation is proved to produce exactly the state function that models it, `Snapshot() == F(old(Snapshot()))`, so every lemma about the functions holds of the running game. The helper methods for one loop body or one pass return their result, or advance a ghost description of a partial scan.

Modelling choices:

- A coin object's identity is an integer `id`, taken fresh from `nextId` when the coin is spawned.
- The moves recorded in phase 2 of a tick are kept apart from the live coin list. A coin that was merged away before its own move is applied is no longer in the list, so its move relocates nothing. The merge at that move's destination still runs, as in the source.
- Iteration over `grid.entries()` follows an explicit sequence of cells. It must list every cell of the grid exactly once (`Tick.Enumerates`).
- The two random draws per cell in chunk generation are the oracles `ironDraw` and `copperDraw`.
  - `ironDraw(c)` means the first draw fell below 0.03.
  - `copperDraw(c)` means the second draw fell below 0.02. It is consulted only when the first draw failed.

Three points where the code's behaviour is easy to misread:

- A new conveyor points up (direction 0, script.js:405). It has to be rotated twice to point down.
- A down-pointing conveyor directly above a factory does not deliver coins anywhere. `Tick.ScenarioFirstTick`, `Tick.ScenarioSecondTick` and `Tick.ScenarioLaterTick` prove:
  - the first tick spawns a coin on the conveyor;
  - the second tick carries it onto the factory's own cell;
  - it stays there, because a factory does not move coins, so after five ticks the conveyor is empty.
- `processedThisTick` is set when an upgrader bumps a coin (script.js:601) and cleared in the same loop iteration (script.js:615), so it never blocks an upgrade. `Tick.MovePhaseUnmarked` proves that no coin carries a mark after phases 2 and 3, `Game.Consistent` includes this, and `Tick.PrepareUpgradesAll` and `Tick.TickUpgradesEveryCoin` prove that every coin standing on an upgrader gains the upgrader power.

## Model

| member | source | states |
|---|---|---|
| Grid.Step | script.js:604-610 | One step in direction d lands on a neighbour at distance 1. Direction 0 decreases y, 1 increases x, 2 increases y, 3 decreases x, and only 1 and 3 change x. |
| Grid.Inventory.Credit | script.js:359 | Crediting one unit of a resource type raises exactly that count by one. It leaves the other resource count and the three building counts alone and keeps the inventory non-negative. |
| Coins.MergeAtSpec | script.js:676-698 | After a merge at c, exactly one coin stands on c if any stood there. It is the earliest of them in list order, and its value is the sum of their values. It keeps its place in the list: every coin before it is unchanged, and of the coins after it only those on c are dropped. The coins on other cells are unchanged and in the same order, and the total value of the list is unchanged. With at most one coin on c the list is unchanged. |
| Coins.KeepFirstPlace | script.js:680-696 | When some coin stands on c, the filtering pass keeps everything before the earliest such coin, that coin with the summed value in its own place, and every later coin not on c. |
| Coins.MergeAtKeeps | script.js:683-696 | A merge creates no id, keeps ids distinct and keeps every value positive. |
| Coins.MergeAtOrigins | script.js:676-698 | Every coin left by a merge has the id and the cell of a coin that was there before: merging moves nothing. |
| Coins.MergeAt | script.js:676-698 | checkAndMergeAt as a function on the coin list. What it guarantees, including the survivor's place in the list, is stated by Coins.MergeAtSpec, Coins.MergeAtKeeps and Coins.MergeAtOrigins. |
| Coins.MergeAtUnmarked | script.js:676-698 | A merge sets no per-tick mark: the coins it keeps carry the marks they had. |
| Coins.MergeExample | script.js:685-693 | Two coins of values 3 and 4 on one cell become one coin of value 7, the earlier of the two. |
| Tick.CollectionMembers | script.js:579-590 | A coin is collected exactly when it stands on a collector. It is kept exactly when it does not. |
| Tick.CollectPhase | script.js:579-590 | Phase 1 as a state function: the backward walk that turns coins on collectors into score. What it guarantees is stated by Tick.CollectPhaseSpec. |
| Tick.CollectPhaseSpec | script.js:579-590 | Collection removes exactly the coins standing on a collector. Every other coin survives in the same relative order, unchanged. The score rises by exactly the collected value, so score plus coin value is conserved, and no other field changes. |
| Tick.CollectPhaseConsistent | script.js:579-590 | Collection keeps the state consistent: the coins kept were there before, and the score grows by a non-negative amount. |
| Tick.PrepareSpec | script.js:594-617 | After phase 2 every coin keeps its id and cell and both per-tick marks are false. A coin on an upgrader that was not marked has gained exactly the upgrader power, and no other coin changed value. |
| Tick.Prepared | script.js:597-616 | Phase 2 on one coin: the coin keeps its id and cell and leaves with both marks cleared. It gains exactly the upgrader power when it stands unmarked on an upgrader, and keeps its value otherwise. |
| Tick.MoveOf | script.js:597-612 | At most one move is recorded for a coin, and one is recorded exactly when it stands on a conveyor or upgrader. The move is for that coin and leads one cell along the building's direction. |
| Tick.Prepare | script.js:594-617 | Phase 2 on the coins, in list order. What it guarantees is stated by Tick.PrepareSpec, Tick.PrepareTotal and Tick.PrepareUpgradesAll. |
| Tick.PrepareUpgradesAll | script.js:599-615 | On a list where no coin carries a mark, every coin standing on an upgrader gains exactly the upgrader power and no other coin changes value. |
| Tick.UpgradeCountSlots | script.js:599-602 | On a list where no coin carries a mark, the number of coins phase 2 upgrades is the number of coins standing on an upgrader. |
| Tick.PrepareTotal | script.js:599-602 | Phase 2 adds the upgrader power to the list's value once for each coin it upgrades. |
| Tick.PlanMovesSpec | script.js:597-613 | A move is recorded for every coin on a conveyor or upgrader and for no other coin. Each move goes one step along that building's direction. Their order is stated by Tick.PlanMovesAppend. |
| Tick.PlanMoves | script.js:594-613 | The moves phase 2 records, one per carried coin, in list order. What they are is stated by Tick.PlanMovesSpec and their order by Tick.PlanMovesAppend. |
| Tick.PlanMovesAppend | script.js:594-613 | Moves are recorded in list order: the moves of a list are the moves of its front followed by those of its back. This order decides which coin survives each merge in phase 3. |
| Tick.PlanMovesDistinct | script.js:594-613 | Over a list with distinct ids, no two recorded moves are for the same coin. |
| Tick.ApplyMovesTotal | script.js:620-624 | Applying the recorded moves, with a merge at each destination, keeps the list's total value. |
| Tick.ApplyMovesIds | script.js:620-624 | Applying the moves creates no id, keeps ids distinct and keeps values positive. |
| Tick.ApplyMovesPlaces | script.js:620-624 | A coin with no recorded move is, if still listed, on the cell it stood on. |
| Tick.Relocate | script.js:621-622 | Setting a coin's cell: the list keeps its length, the coins with that id get the destination and every other coin is unchanged. |
| Tick.ApplyMove | script.js:620-623 | One recorded move: relocate the coin, then merge at the destination. What it guarantees is stated by Tick.ApplyMoveArrives and Tick.ApplyMovePlaces. |
| Tick.ApplyMoveArrives | script.js:620-623 | After one move, every coin with the move's id stands on its destination. |
| Tick.ApplyMovesArrive | script.js:620-624 | When the recorded moves are for distinct coins, every coin that had a move and is still listed after phase 3 stands on that move's destination. |
| Tick.ApplyMoves | script.js:620-624 | Phase 3: each recorded move in order relocates its coin and merges at the destination. What it guarantees is stated by Tick.ApplyMovesArrive, Tick.ApplyMovesTotal, Tick.ApplyMovesIds, Tick.ApplyMovesPlaces and Tick.ApplyMovesUnmarked. |
| Tick.ApplyMovesUnmarked | script.js:620-624 | Applying the moves sets no per-tick mark. |
| Tick.MovePhaseSpec | script.js:593-624 | Phases 2 and 3 raise the list's value by the upgrader power times the number of upgraded coins and change no other field. |
| Tick.MovePhaseStays | script.js:594-624 | A coin that stood on no conveyor or upgrader is still on its cell after phases 2 and 3, unless it was merged away. |
| Tick.MovePhaseArrive | script.js:594-624 | Over a list with distinct ids, every coin standing on a conveyor or upgrader is, if still listed after phases 2 and 3, one cell along that building's direction. |
| Tick.MovePhase | script.js:593-624 | Phases 2 and 3 as a state function. What they guarantee is stated by Tick.MovePhaseArrive, Tick.MovePhaseSpec, Tick.MovePhaseStays, Tick.MovePhaseUnmarked and Tick.MovePhaseConsistent. |
| Tick.MovePhaseUnmarked | script.js:594-624 | After phases 2 and 3 no coin carries a per-tick mark, whatever marks the coins had before. |
| Tick.MovePhaseConsistent | script.js:593-624 | Phases 2 and 3 keep the state consistent. |
| Tick.FirstOutlet | script.js:640-646 | The neighbour found is the first in the given order that holds a conveyor or collector. None is found only when no neighbour holds one. |
| Tick.SpawnTarget | script.js:633-646 | The spawn target, if any, is a neighbour holding a conveyor or collector. With none, no neighbour holds one. Which neighbour is chosen is stated by Tick.FirstOutlet. |
| Tick.FactoryStepSpec | script.js:628-655 | A factory's cooldown drops by one. If the result is still positive, it is stored. Otherwise the factory spawns on the first of up, down, right, left that holds a conveyor or collector: the cooldown becomes 5 and exactly one coin stands on that cell, worth the coins there before plus 1. Coins elsewhere are unchanged and the list's value grows by 1. With no such neighbour the cooldown is set to 0 and nothing spawns. |
| Tick.FactoryStepConsistent | script.js:648-651 | A spawned coin takes a fresh id, so a factory's turn keeps the state consistent. |
| Tick.FactoryStep | script.js:628-655 | One factory's turn as a state function. What it guarantees is stated by Tick.FactoryStepSpec and Tick.FactoryStepFrame. |
| Tick.FactoryStepFrame | script.js:628-655 | A factory's turn changes no cell other than its own and creates or removes no conveyor or collector, so every factory's spawn target stays the same. The next id never decreases. |
| Tick.FactoryStepOrigins | script.js:628-655 | A factory's turn adds at most one coin, with a fresh id. Every other coin stands where a coin with its id stood before. |
| Tick.FactoryPhaseSpec | script.js:627-657 | The factory phase changes only factories (which stay factories), the coin list and the next id. The list's value grows by one per spawned coin, and consistency is kept. The cooldown each factory ends with is stated by Tick.FactoryPhaseRule. |
| Tick.FactoryPhase | script.js:627-657 | Phase 4: each listed cell in turn takes a factory turn. What it guarantees is stated by Tick.FactoryPhaseSpec, Tick.FactoryPhaseFrame and Tick.FactoryPhaseRule. |
| Tick.FactoryPhaseFrame | script.js:627-657 | A cell the phase does not visit keeps its building, no spawn target moves, and the next id never decreases. |
| Tick.FactoryPhaseOrigins | script.js:627-657 | The factory phase adds only coins with fresh ids and moves none. |
| Tick.FactoryPhaseRule | script.js:627-657 | Over a duplicate-free listing, every listed factory ends the phase with its cooldown less one while that is positive. Otherwise its cooldown becomes 5 when one of its neighbours holds a conveyor or collector at the start of the phase, and then a coin was spawned. Otherwise it becomes 0. |
| Tick.GeneratorPhaseSpec | script.js:660-665 | The generator phase adds one iron per listed iron generator and one copper per listed copper generator. It changes nothing else and keeps consistency. |
| Tick.GeneratorPhase | script.js:660-665 | Phase 5: each listed generator credits its resource. What it guarantees is stated by Tick.GeneratorPhaseSpec. |
| Tick.GeneratorStep | script.js:661-663 | A turn changes only the inventory. On a generator cell it credits one unit of that generator's resource type, and on any other cell the state is unchanged. |
| Tick.GeneratorCountIsCardinality | script.js:660-665 | Over a duplicate-free listing of the grid, the number of generators counted is the number of cells holding a generator of that type. |
| Tick.TickConsistent | script.js:575-671 | A whole tick keeps the state consistent: ids distinct and below the next id, values positive, score non-negative. |
| Tick.TickBalance | script.js:575-671 | Over a tick, the score rises by exactly the collected value. Score plus coin value rises by exactly the upgrader bonuses plus one per spawned coin. The grid keeps its cells and every building other than a factory. Deposits, chunks, power and price do not change. |
| Tick.TickIncome | script.js:660-665 | Over a tick, iron and copper each rise by the number of generators of their type on the grid, and the building counts do not change. |
| Tick.TickMoves | script.js:575-657 | From a consistent state, a tick carries every coin standing on a conveyor or upgrader one cell along that building's direction: if the coin is still listed after the tick, it stands there. |
| Tick.Tick | script.js:575-671 | runGameTick as the five phases in order. What it guarantees is stated by Tick.TickConsistent, Tick.TickBalance, Tick.TickIncome, Tick.TickMoves, Tick.TickUpgradesEveryCoin and Tick.TickFactoryRule. |
| Tick.TickUpgradesEveryCoin | script.js:575-624 | From a consistent state, score plus coin value rises over a tick by exactly the upgrader power for every coin left by collection that stands on an upgrader, plus one per spawned coin. |
| Tick.TickFactoryRule | script.js:575-657 | Over the grid's own listing, every factory follows the factory rule over a whole tick, against the grid it started the tick with: its cooldown less one while positive, else 5 with a spawned coin when it has an outlet, else 0. |
| Tick.ScenarioFirstTick | script.js:627-657 | With a factory of cooldown 0 under a down-pointing conveyor and no coins, one tick spawns a value-1 coin on the conveyor and sets the cooldown to 5. |
| Tick.ScenarioSecondTick | script.js:594-630 | The next tick carries that coin onto the factory's cell, and the cooldown becomes 4. |
| Tick.ScenarioLaterTick | script.js:627-630 | While the cooldown is above 1, further ticks leave the coin on the factory's cell and only count the factory down. |
| Chunks.ChunkOf | script.js:721-722 | Every cell lies in the chunk obtained by floor-dividing its coordinates by 16. |
| Chunks.GenerateChunk | script.js:261-298 | The chunk is marked generated. On a chunk already generated nothing changes. No deposit is removed or replaced, and only resources and chunks change. Every new deposit lies inside the chunk's 16 by 16 block and outside the starting area \|x\| < 10, \|y\| < 10. A chunk cell without a deposit receives one exactly when its draw succeeds: iron when the first draw succeeds, copper when only the second does. |
| Chunks.Deposits | script.js:272-294 | The deposits a first visit adds, one per drawn cell of the chunk without a deposit. What they are is stated by Chunks.GenerateChunk. |
| Chunks.Deposit | script.js:276-294 | Nothing is placed in the starting area. Iron is placed only when the iron draw succeeds, and copper only when the iron draw fails and the copper draw succeeds. Outside the starting area, a cell stays empty only when both draws fail. |
| Chunks.GenerateChunkIdempotent | script.js:262-266 | Generating a chunk a second time changes nothing, whatever the draws. |
| Chunks.GenerateChunkConsistent | script.js:261-298 | Chunk generation keeps the state consistent. |
| Actions.RemoveAt | script.js:349-356 | On an empty cell nothing happens. Otherwise the building is deleted. A factory, upgrader or generator goes back into the inventory, a conveyor or collector does not, and nothing else changes. |
| Actions.MineAt | script.js:357-364 | With no deposit the click is refused and nothing changes. Otherwise that resource count rises by one, the deposit disappears, and every other count stays the same. |
| Actions.MineTwice | script.js:357-364 | A deposit can be mined once; mining the same cell again is refused. |
| Actions.RotateAt | script.js:365-371 | Only a conveyor or upgrader turns, to direction (d+1) mod 4. It keeps its kind and every other cell is untouched. Anything else is refused and nothing changes. |
| Actions.RotateFourTimes | script.js:365-368 | Four rotations restore the state exactly. |
| Grid.Rotated | script.js:367 | A quarter turn always changes the direction. Four turns are the identity (Grid.RotatedFourTimes, Actions.RotateFourTimes). |
| Grid.RotatedFourTimes | script.js:367 | Four quarter turns bring a direction back to where it was. |
| Actions.PlaceGenerator | script.js:372-383 | Placement succeeds exactly when the cell has no building, has a deposit and a generator is in stock. Success uses up one generator and builds it with the deposit's type, leaving the deposit in place. A refusal changes nothing. |
| Actions.PlaceBuilding | script.js:384-414 | On a cell holding a building or a deposit nothing changes. Otherwise placement succeeds exactly when the kind is a free conveyor or collector, or a factory or upgrader that is in stock. Success uses up one stocked building and puts down a factory with cooldown 0, or a conveyor or upgrader pointing up. A refusal changes nothing. |
| Actions.PlaceThenRemove | script.js:349-414 | Placing any building and removing it again restores the state exactly, including the inventory. |
| Actions.ClickConsistent | script.js:344-414 | Every click keeps the state consistent: no stock goes below zero. |
| Actions.Click | script.js:344-414 | The canvas click, dispatched on the selected tool. What each tool does is stated by Actions.RemoveAt, Actions.MineAt, Actions.RotateAt, Actions.PlaceGenerator and Actions.PlaceBuilding. |
| Actions.Craft | script.js:439-476 | Crafting succeeds exactly when iron and copper cover the recipe's price: factory 5 and 2, upgrader 10 and 5, generator 20 and 10. Success debits exactly the price and credits exactly one unit of that building, with no other count changing. A refusal leaves the inventory unchanged. |
| Actions.NextCost | script.js:483 | The next price is floor(cost times 1.5): 2r <= 3c < 2r + 2, and it never falls below a positive cost. |
| Actions.CostSchedule | script.js:483 | From a new game the price runs 100, 150, 225. |
| Actions.BuyUpgraderPower | script.js:479-492 | The purchase succeeds exactly when the score covers the price. It then pays the price, adds one to the upgrader power and sets the price to floor(1.5 times price). A refusal changes nothing, and the score never becomes negative. |
| Engine.World.constructor | script.js:16-29 | A new world is the new game: nothing built or owned, upgrader power 1, price 100. |
| Game.NewGameConsistent | script.js:16-29 | The new game, `Game.NewGame` (no buildings, deposits, coins or chunks, score 0, upgrader power 1, price 100, empty inventory), is consistent. |
| Engine.World.CheckAndMergeAt | script.js:676-698 | The merge on the world's coin list is exactly Coins.MergeAt; nothing else changes. |
| Engine.SumOnCell | script.js:677-690 | The summing pass counts the coins on the cell and sums their values. |
| Engine.FilterMerged | script.js:680-696 | The filtering pass keeps every coin off the cell in order. Of the coins on the cell it keeps only the first, carrying the sum. |
| Engine.Collect | script.js:579-590 | The backward walk with splicing leaves exactly the uncollected coins and gains exactly the collected value. |
| Engine.World.CollectItems | script.js:579-590 | Phase 1 on the world is exactly Tick.CollectPhase. |
| Engine.World.PrepareItems | script.js:593-617 | Phase 2 on the world updates every coin as Tick.Prepare does and returns exactly the moves of Tick.PlanMoves. |
| Engine.World.PrepareOne | script.js:595-616 | The loop body of phase 2 gives exactly Tick.Prepared for the coin and records exactly its Tick.MoveOf move. |
| Engine.World.Reposition | script.js:621-622 | Setting a coin's cell changes the coin with that id, if it is still listed, and nothing else. |
| Engine.World.ApplyRecordedMoves | script.js:620-624 | Phase 3 on the world is exactly Tick.ApplyMoves. |
| Engine.World.FindSpawnLocation | script.js:633-646 | The neighbour scan returns exactly the first outlet in the order up, down, right, left. |
| Engine.World.FactoryTurn | script.js:628-655 | One factory's turn on the world is exactly Tick.FactoryStep. |
| Engine.World.ProcessFactories | script.js:627-657 | Phase 4 on the world is exactly Tick.FactoryPhase. |
| Engine.World.ProcessGenerators | script.js:660-665 | Phase 5 on the world is exactly Tick.GeneratorPhase. |
| Engine.World.RunGameTick | script.js:575-671 | A tick on the world is exactly Tick.Tick and keeps the world consistent. |
| Engine.PlacedFactorySpawnsAtOnce | script.js:395 | A newly placed factory has cooldown 0. On the first whole tick after placement, if it has an outlet, it spawns a coin and its cooldown becomes 5. With no outlet it waits at cooldown 0. |
| Engine.World.GenerateChunk | script.js:261-298 | The row-by-row scan of the chunk on the world is exactly Chunks.GenerateChunk. |
| Engine.World.ScanRow | script.js:272-293 | One row of the scan leaves the scan at the start of the next row: every drawn cell of the row without a deposit now holds its draw, and nothing else changed. |
| Engine.World.ScanCell | script.js:274-294 | One cell of the scan adds that cell's draw when it has no deposit and moves the scan past it. |
| Engine.World.Click | script.js:344-414 | A click on the world has exactly the effect and outcome of Actions.Click. |
| Engine.World.PlaceOnFreeCell | script.js:390-413 | Placing a factory, upgrader, conveyor or collector on a free cell is exactly Actions.PlaceBuilding. |
| Engine.World.CraftItem | script.js:439-476 | Crafting on the world is exactly Actions.Craft. |
| Engine.World.BuyUpgraderPower | script.js:479-492 | Buying on the world is exactly Actions.BuyUpgraderPower. |

## Left out

- Persistence (Firebase initialisation, sign-in, the snapshot listener, `loadGame`, `saveGame` and the periodic save) talks to an external service. The `saveGame()` calls inside the modelled functions are no-ops here.
- Rendering (`render`, `drawBuilding`, `drawItem`) is canvas drawing. Its trigger for chunk generation is modelled only as the cell-to-chunk mapping `Chunks.ChunkOf` and a direct call of `Engine.World.GenerateChunk`.
- The joystick, player movement and camera work on floating-point screen positions.
- Tick timing in `update` depends on the wall clock. The model simply calls `RunGameTick`.
- Screen-to-grid conversion is floating-point arithmetic. Every action takes an integer cell directly.
- `updateUI`, `updateShopUI`, `showMessage` and the `needsUIUpdate` flag are display output. Messages become the `Failure` value in a refused `Outcome`.
- `Math.random()` becomes oracles and fresh ids:
  - the chunk draws become the `ironDraw` and `copperDraw` parameters;
  - a coin's `id: Math.random()` becomes the next fresh integer id.
- Deposit colours are display constants and are dropped.
- A click with no tool selected returns at once (script.js:335). `Actions.Tool` has no "no tool" value.
- A recipe name other than the three known ones does nothing in `craftItem`. `Actions.Recipe` has only the three recipes.
- Directions outside 0 to 3 are never stored by the source. `Grid.Dir` is the subtype 0..3.
- JavaScript numbers are doubles. Scores, values, counts and prices are unbounded integers here, so precision loss above 2^53 is not modelled. This includes the rounding of `upgraderPowerCost * 1.5` for such prices.
- `Tick.Tick`, `Tick.FactoryPhase`, `Tick.GeneratorPhase` and `Engine.World.RunGameTick` take the grid's iteration order as a parameter, because a Map's insertion order is not part of the model. Results that depend on the order of factories hold for the order given.
- `Engine.FilterMerged` removes the later coins on the cell by their position in the list, where the source removes them by object identity. The two agree whenever ids are distinct, which `Game.Consistent` guarantees and every operation preserves.
