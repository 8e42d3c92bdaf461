/** Lazy resource generation, one 16 by 16 chunk at a time. The two random draws of each cell
    are given as oracles: ironDraw(c) is "the first draw fell below 0.03" and copperDraw(c)
    is "the second draw fell below 0.02"; the second is only consulted when the first failed. */
module Chunks {
  import opened Grid
  import opened Game

  const ChunkSize := 16

  /** The cells of a chunk. */
  function ChunkCells(k: ChunkId): set<Cell>
  {
    set x, y | k.cx * ChunkSize <= x < k.cx * ChunkSize + ChunkSize
            && k.cy * ChunkSize <= y < k.cy * ChunkSize + ChunkSize :: Cell(x, y)
  }

  /** The chunk the renderer asks for when cell c is visible (floor division by 16). */
  function ChunkOf(c: Cell): (k: ChunkId)
    ensures c in ChunkCells(k)
  {
    var k := ChunkId(c.x / ChunkSize, c.y / ChunkSize);
    assert Cell(c.x, c.y) in ChunkCells(k);
    k
  }

  /** The starting area, where no deposit is ever generated. */
  predicate SafeZone(c: Cell) { Abs(c.x) < 10 && Abs(c.y) < 10 }

  /** What generation places on cell c, if anything: iron when the first draw succeeds,
      otherwise copper when the second does; nothing in the starting area. */
  function Deposit(c: Cell, ironDraw: Cell -> bool, copperDraw: Cell -> bool): (r: Option<ResourceType>)
    ensures SafeZone(c) ==> r.None?
    ensures r == Some(Iron) ==> ironDraw(c)
    ensures r == Some(Copper) ==> !ironDraw(c) && copperDraw(c)
    ensures r.None? && !SafeZone(c) ==> !ironDraw(c) && !copperDraw(c)
  {
    if SafeZone(c) then None
    else if ironDraw(c) then Some(Iron)
    else if copperDraw(c) then Some(Copper)
    else None
  }

  /** The deposits a first visit of chunk k adds: one per drawn cell that holds none yet. */
  function Deposits(res: map<Cell, ResourceNode>, k: ChunkId, ironDraw: Cell -> bool, copperDraw: Cell -> bool)
    : map<Cell, ResourceNode>
  {
    map c | c in ChunkCells(k) && c !in res && Deposit(c, ironDraw, copperDraw).Some?
      :: ResourceNode(Deposit(c, ironDraw, copperDraw).value)
  }

  /** generateChunk: the first call on a chunk marks it generated and seeds its cells; later
      calls change nothing. Nothing is removed or replaced, and new deposits lie inside the
      chunk and outside the starting area. */
  function GenerateChunk(s: State, k: ChunkId, ironDraw: Cell -> bool, copperDraw: Cell -> bool): (r: State)
    ensures r == s.(resources := r.resources, chunks := r.chunks)
    ensures r.chunks == s.chunks + {k}
    ensures k in s.chunks ==> r == s
    ensures s.resources.Keys <= r.resources.Keys
    ensures forall c :: c in s.resources ==> r.resources[c] == s.resources[c]
    ensures forall c :: c in r.resources && c !in s.resources ==> c in ChunkCells(k) && !SafeZone(c)
    ensures k !in s.chunks ==>
      forall c :: c in ChunkCells(k) && c !in s.resources ==>
        && (c in r.resources <==> Deposit(c, ironDraw, copperDraw).Some?)
        && (c in r.resources ==> r.resources[c].kind == Deposit(c, ironDraw, copperDraw).value)
  {
    if k in s.chunks then s
    else s.(chunks := s.chunks + {k},
            resources := s.resources + Deposits(s.resources, k, ironDraw, copperDraw))
  }

  /** A second visit of a chunk changes nothing, whatever the draws would have been. */
  lemma GenerateChunkIdempotent(s: State, k: ChunkId, iron1: Cell -> bool, copper1: Cell -> bool,
                                iron2: Cell -> bool, copper2: Cell -> bool)
    ensures var once := GenerateChunk(s, k, iron1, copper1);
      GenerateChunk(once, k, iron2, copper2) == once
  {
  }

  /** Generation touches no coin, building, count or score, so it keeps the state consistent. */
  lemma GenerateChunkConsistent(s: State, k: ChunkId, ironDraw: Cell -> bool, copperDraw: Cell -> bool)
    requires Consistent(s)
    ensures Consistent(GenerateChunk(s, k, ironDraw, copperDraw))
  {
  }
}
