/** runGameTick as five state functions, one per phase, and what each of them promises. */
module Tick {
  import opened Grid
  import opened Coins
  import opened Game

  // ---------------------------------------------------------------------------------------
  // Identity bookkeeping shared by the phases

  /** Two lists whose items have the same ids position by position. */
  lemma {:induction false} SameIds(r: seq<Item>, s: seq<Item>)
    requires |r| == |s|
    requires forall i :: 0 <= i < |s| ==> r[i].id == s[i].id
    ensures Ids(r) == Ids(s)
    ensures UniqueIds(r) == UniqueIds(s)
  {
    if s != [] {
      SameIds(r[1..], s[1..]);
    }
  }

  /** Appending a coin with an unused id keeps ids unique. */
  lemma {:induction false} AppendFresh(s: seq<Item>, x: Item)
    requires x.id !in Ids(s)
    ensures Ids(s + [x]) == Ids(s) + {x.id}
    ensures UniqueIds(s) ==> UniqueIds(s + [x])
  {
    IdsAppend(s, x);
    if s != [] {
      assert (s + [x])[1..] == s[1..] + [x];
      IdsAppend(s[1..], x);
      AppendFresh(s[1..], x);
    }
  }

  lemma {:induction false} IdsAppend(s: seq<Item>, x: Item)
    ensures Ids(s + [x]) == Ids(s) + {x.id}
  {
    if s == [] {
      assert s + [x] == [x];
    } else {
      assert (s + [x])[1..] == s[1..] + [x];
      IdsAppend(s[1..], x);
    }
  }

  // ---------------------------------------------------------------------------------------
  // Phase 1: collection (script.js:579-590)

  predicate OnCollector(x: Item, g: map<Cell, Building>) { x.pos in g && g[x.pos].Collector? }

  /** The items standing on a collector, in list order. */
  function Collected(s: seq<Item>, g: map<Cell, Building>): seq<Item>
  {
    if s == [] then []
    else if OnCollector(s[0], g) then [s[0]] + Collected(s[1..], g)
    else Collected(s[1..], g)
  }

  /** The items the collection phase leaves in the list, in list order. */
  function Uncollected(s: seq<Item>, g: map<Cell, Building>): seq<Item>
  {
    if s == [] then []
    else if OnCollector(s[0], g) then Uncollected(s[1..], g)
    else [s[0]] + Uncollected(s[1..], g)
  }

  /** Collection takes exactly the items on collectors and leaves exactly the others. */
  lemma {:induction false} CollectionMembers(s: seq<Item>, g: map<Cell, Building>)
    ensures forall x :: x in Collected(s, g) <==> x in s && OnCollector(x, g)
    ensures forall x :: x in Uncollected(s, g) <==> x in s && !OnCollector(x, g)
  {
    if s != [] {
      CollectionMembers(s[1..], g);
      assert forall x :: x in s <==> x == s[0] || x in s[1..] by {
        assert s == [s[0]] + s[1..];
      }
    }
  }

  /** The items left by collection keep their relative order. */
  lemma {:induction false} UncollectedSublist(s: seq<Item>, g: map<Cell, Building>)
    ensures Sublist(Uncollected(s, g), s)
  {
    if s != [] {
      UncollectedSublist(s[1..], g);
      if !OnCollector(s[0], g) {
        assert Uncollected(s, g)[1..] == Uncollected(s[1..], g);
      }
    }
  }

  lemma {:induction false} CollectionSplit(s: seq<Item>, g: map<Cell, Building>)
    ensures Total(s) == Total(Collected(s, g)) + Total(Uncollected(s, g))
  {
    if s != [] {
      CollectionSplit(s[1..], g);
    }
  }

  /** Phase 1: every item on a collector leaves the list and its value goes to the score. */
  function CollectPhase(s: State): State
  {
    s.(items := Uncollected(s.items, s.grid), score := s.score + Total(Collected(s.items, s.grid)))
  }

  /** Collection removes exactly the items on collectors, keeps every other item with its
      position, value and order, and moves value from the items to the score without loss. */
  lemma CollectPhaseSpec(s: State)
    ensures var r := CollectPhase(s);
      && Sublist(r.items, s.items)
      && (forall x :: x in r.items <==> x in s.items && !OnCollector(x, s.grid))
      && r.score - s.score == Total(Collected(s.items, s.grid))
      && r.score + Total(r.items) == s.score + Total(s.items)
      && r == s.(items := r.items, score := r.score)
    ensures Consistent(s) ==> Consistent(CollectPhase(s))
  {
    var r := CollectPhase(s);
    CollectionSplit(s.items, s.grid);
    CollectionMembers(s.items, s.grid);
    UncollectedSublist(s.items, s.grid);
    if Consistent(s) {
      CollectPhaseConsistent(s);
    }
  }

  /** The items kept are among those there before, and the score grows by a positive value. */
  lemma CollectPhaseConsistent(s: State)
    requires Consistent(s)
    ensures Consistent(CollectPhase(s))
  {
    var kept, c := Uncollected(s.items, s.grid), Collected(s.items, s.grid);
    CollectionMembers(s.items, s.grid);
    UncollectedSublist(s.items, s.grid);
    SublistMembers(kept, s.items);
    assert AllPositive(c);
    TotalOfPositive(c);
  }

  // ---------------------------------------------------------------------------------------
  // Phase 2: upgrades and recording of moves (script.js:593-617)

  /** A recorded move: the item with this id is to go to dest. */
  datatype Move = Move(id: nat, dest: Cell)

  predicate Carried(x: Item, g: map<Cell, Building>) { x.pos in g && g[x.pos].Carries() }

  predicate Upgrades(x: Item, g: map<Cell, Building>)
  {
    x.pos in g && g[x.pos].Upgrader? && !x.processed
  }

  /** Phase 2 on one item: an upgrader bumps an unprocessed item by power and marks it, then
      both per-tick marks are cleared whatever happened. */
  function Prepared(x: Item, g: map<Cell, Building>, power: int): (r: Item)
    ensures r.id == x.id && r.pos == x.pos && !r.processed && !r.merged
    ensures Upgrades(x, g) ==> r.value == x.value + power
    ensures !Upgrades(x, g) ==> r.value == x.value
  {
    var bumped := if Upgrades(x, g) then x.(value := x.value + power, processed := true) else x;
    bumped.(processed := false, merged := false)
  }

  /** The move recorded for one item: one cell along its conveyor's or upgrader's direction. */
  function MoveOf(x: Item, g: map<Cell, Building>): (r: seq<Move>)
    ensures |r| <= 1 && (r != [] <==> Carried(x, g))
    ensures forall m :: m in r ==> m.id == x.id && m.dest == Step(x.pos, g[x.pos].direction)
  {
    if Carried(x, g) then [Move(x.id, Step(x.pos, g[x.pos].direction))] else []
  }

  function Prepare(s: seq<Item>, g: map<Cell, Building>, power: int): seq<Item>
  {
    if s == [] then [] else Prepare(s[..|s| - 1], g, power) + [Prepared(s[|s| - 1], g, power)]
  }

  function PlanMoves(s: seq<Item>, g: map<Cell, Building>): seq<Move>
  {
    if s == [] then [] else PlanMoves(s[..|s| - 1], g) + MoveOf(s[|s| - 1], g)
  }

  /** How many items an upgrader bumps in phase 2. */
  function UpgradeCount(s: seq<Item>, g: map<Cell, Building>): nat
  {
    if s == [] then 0
    else UpgradeCount(s[..|s| - 1], g) + (if Upgrades(s[|s| - 1], g) then 1 else 0)
  }

  /** After phase 2 every item keeps its id and cell, both marks are clear, and an item on an
      upgrader that was not yet processed has gained exactly power; nothing else changed value. */
  lemma {:induction false} PrepareSpec(s: seq<Item>, g: map<Cell, Building>, power: int)
    ensures |Prepare(s, g, power)| == |s|
    ensures forall i :: 0 <= i < |s| ==>
      var y := Prepare(s, g, power)[i];
      && y.id == s[i].id && y.pos == s[i].pos && !y.processed && !y.merged
      && y.value == s[i].value + (if Upgrades(s[i], g) then power else 0)
  {
    if s != [] {
      var init := s[..|s| - 1];
      PrepareSpec(init, g, power);
      var p := Prepare(s, g, power);
      assert p == Prepare(init, g, power) + [Prepared(s[|s| - 1], g, power)];
      forall i | 0 <= i < |s| - 1
        ensures p[i] == Prepare(init, g, power)[i] && s[i] == init[i]
      {
      }
    }
  }

  /** Phase 2 adds power to the list's value for every item it upgrades. */
  lemma {:induction false} PrepareTotal(s: seq<Item>, g: map<Cell, Building>, power: int)
    ensures Total(Prepare(s, g, power)) == Total(s) + power * UpgradeCount(s, g)
  {
    if s != [] {
      var init, x := s[..|s| - 1], s[|s| - 1];
      var y := Prepared(x, g, power);
      var b := if Upgrades(x, g) then 1 else 0;
      assert s == init + [x];
      assert Prepare(s, g, power) == Prepare(init, g, power) + [y];
      assert UpgradeCount(s, g) == UpgradeCount(init, g) + b;
      PrepareTotal(init, g, power);
      TotalAppend(init, [x]);
      TotalAppend(Prepare(init, g, power), [y]);
      assert Total([x]) == x.value && Total([y]) == y.value;
      assert y.value == x.value + power * b;
      Distribute(power, UpgradeCount(init, g), b);
    }
  }

  lemma Distribute(p: int, a: int, b: int)
    ensures p * (a + b) == p * a + p * b
  {
  }


  /** Every recorded move belongs to an item on a conveyor or upgrader and goes one cell along
      that building's direction; every such item has its move recorded. */
  lemma {:induction false} PlanMovesSpec(s: seq<Item>, g: map<Cell, Building>)
    ensures forall m :: m in PlanMoves(s, g) ==>
      exists x :: x in s && Carried(x, g) && m == Move(x.id, Step(x.pos, g[x.pos].direction))
    ensures forall x :: x in s && Carried(x, g) ==>
      Move(x.id, Step(x.pos, g[x.pos].direction)) in PlanMoves(s, g)
  {
    if s != [] {
      var init, x := s[..|s| - 1], s[|s| - 1];
      assert s == init + [x];
      PlanMovesSpec(init, g);
      assert forall y :: y in init ==> y in s;
    }
  }

  /** Moves are recorded in list order: the moves of a list are those of its front followed
      by those of its back. */
  lemma {:induction false} PlanMovesAppend(a: seq<Item>, b: seq<Item>, g: map<Cell, Building>)
    ensures PlanMoves(a + b, g) == PlanMoves(a, g) + PlanMoves(b, g)
    decreases |b|
  {
    if b == [] {
      assert a + b == a;
    } else {
      var init := b[..|b| - 1];
      assert a + b == (a + init) + [b[|b| - 1]];
      assert (a + b)[..|a + b| - 1] == a + init;
      PlanMovesAppend(a, init, g);
    }
  }

  predicate OnUpgrader(x: Item, g: map<Cell, Building>) { x.pos in g && g[x.pos].Upgrader? }

  /** The positions in s of the items standing on an upgrader. */
  function UpgraderSlots(s: seq<Item>, g: map<Cell, Building>): set<int>
  {
    set i | 0 <= i < |s| && OnUpgrader(s[i], g)
  }

  /** With no mark set, phase 2 upgrades every item standing on an upgrader. */
  lemma {:induction false} UpgradeCountSlots(s: seq<Item>, g: map<Cell, Building>)
    requires Unmarked(s)
    ensures UpgradeCount(s, g) == |UpgraderSlots(s, g)|
  {
    if s != [] {
      var n := |s| - 1;
      var init := s[..n];
      assert forall x :: x in init ==> x in s;
      UpgradeCountSlots(init, g);
      forall i | 0 <= i < n ensures init[i] == s[i] {}
      assert s[n] in s;
      assert UpgraderSlots(s, g) == UpgraderSlots(init, g) + (if OnUpgrader(s[n], g) then {n} else {});
    }
  }

  /** With no mark set, every item on an upgrader gains exactly power in phase 2, and no other
      item changes value. */
  lemma PrepareUpgradesAll(s: seq<Item>, g: map<Cell, Building>, power: int)
    requires Unmarked(s)
    ensures |Prepare(s, g, power)| == |s|
    ensures forall i :: 0 <= i < |s| ==>
      Prepare(s, g, power)[i].value == s[i].value + (if OnUpgrader(s[i], g) then power else 0)
  {
    PrepareSpec(s, g, power);
    forall i | 0 <= i < |s| ensures Upgrades(s[i], g) == OnUpgrader(s[i], g) {
      assert s[i] in s;
    }
  }

  // ---------------------------------------------------------------------------------------
  // Phase 3: applying the recorded moves (script.js:620-624)

  /** `move.item.x/y = …` on the item object with this id; when that object has been merged
      away already, nothing in the list changes. */
  function Relocate(s: seq<Item>, id: nat, dest: Cell): (r: seq<Item>)
    ensures |r| == |s|
    ensures forall i :: 0 <= i < |s| ==> r[i] == if s[i].id == id then s[i].(pos := dest) else s[i]
  {
    if s == [] then []
    else [if s[0].id == id then s[0].(pos := dest) else s[0]] + Relocate(s[1..], id, dest)
  }

  lemma RelocateKeeps(s: seq<Item>, id: nat, dest: Cell)
    ensures Total(Relocate(s, id, dest)) == Total(s)
    ensures Ids(Relocate(s, id, dest)) == Ids(s)
    ensures UniqueIds(Relocate(s, id, dest)) == UniqueIds(s)
    ensures AllPositive(s) ==> AllPositive(Relocate(s, id, dest))
  {
    var r := Relocate(s, id, dest);
    SameIds(r, s);
    RelocateTotal(s, id, dest);
    if AllPositive(s) {
      forall y | y in r ensures y.value >= 1 {
        var i :| 0 <= i < |r| && r[i] == y;
        assert s[i] in s;
      }
    }
  }

  lemma {:induction false} RelocateTotal(s: seq<Item>, id: nat, dest: Cell)
    ensures Total(Relocate(s, id, dest)) == Total(s)
  {
    if s != [] {
      RelocateTotal(s[1..], id, dest);
      assert Relocate(s, id, dest)[1..] == Relocate(s[1..], id, dest);
    }
  }

  /** One recorded move: relocate its item, then merge at the destination (the merge runs even
      when the item itself had been merged away). */
  function ApplyMove(s: seq<Item>, m: Move): seq<Item>
  {
    MergeAt(Relocate(s, m.id, m.dest), m.dest)
  }

  function ApplyMoves(s: seq<Item>, ms: seq<Move>): seq<Item>
    decreases |ms|
  {
    if ms == [] then s else ApplyMoves(ApplyMove(s, ms[0]), ms[1..])
  }

  function MoveIds(ms: seq<Move>): set<nat> { set m | m in ms :: m.id }

  /** Applying moves with their merges keeps the total value of the list. */
  lemma {:induction false} ApplyMovesTotal(s: seq<Item>, ms: seq<Move>)
    ensures Total(ApplyMoves(s, ms)) == Total(s)
    decreases |ms|
  {
    if ms != [] {
      var m := ms[0];
      RelocateKeeps(s, m.id, m.dest);
      MergeAtSpec(Relocate(s, m.id, m.dest), m.dest);
      ApplyMovesTotal(ApplyMove(s, m), ms[1..]);
    }
  }

  /** Applying moves creates no id, keeps ids unique and values positive. */
  lemma {:induction false} ApplyMovesIds(s: seq<Item>, ms: seq<Move>)
    ensures Ids(ApplyMoves(s, ms)) <= Ids(s)
    ensures UniqueIds(s) ==> UniqueIds(ApplyMoves(s, ms))
    ensures AllPositive(s) ==> AllPositive(ApplyMoves(s, ms))
    decreases |ms|
  {
    if ms != [] {
      var m := ms[0];
      RelocateKeeps(s, m.id, m.dest);
      MergeAtKeeps(Relocate(s, m.id, m.dest), m.dest);
      ApplyMovesIds(ApplyMove(s, m), ms[1..]);
    }
  }

  /** Moving and merging copy the marks of the items they keep, so they set no mark. */
  lemma {:induction false} ApplyMovesUnmarked(s: seq<Item>, ms: seq<Move>)
    requires Unmarked(s)
    ensures Unmarked(ApplyMoves(s, ms))
    decreases |ms|
  {
    if ms != [] {
      var t := Relocate(s, ms[0].id, ms[0].dest);
      forall y | y in t ensures !y.processed && !y.merged {
        var i :| 0 <= i < |t| && t[i] == y;
        assert s[i] in s;
      }
      MergeAtUnmarked(t, ms[0].dest);
      ApplyMovesUnmarked(ApplyMove(s, ms[0]), ms[1..]);
    }
  }

  /** An item of s with this id stands on c. */
  predicate Sits(s: seq<Item>, id: nat, c: Cell)
  {
    exists x :: x in s && x.id == id && x.pos == c
  }

  /** Relocation moves no item but the one with the given id. */
  lemma RelocateOthers(s: seq<Item>, id: nat, dest: Cell)
    ensures forall y :: y in Relocate(s, id, dest) && y.id != id ==> y in s
  {
    var t := Relocate(s, id, dest);
    forall y | y in t && y.id != id ensures y in s {
      var i :| 0 <= i < |t| && t[i] == y;
      assert t[i] == s[i];
    }
  }

  /** One move leaves every item but its own on the cell it stood on. */
  lemma ApplyMovePlaces(s: seq<Item>, m: Move)
    ensures forall y :: y in ApplyMove(s, m) && y.id != m.id ==> Sits(s, y.id, y.pos)
  {
    var t := Relocate(s, m.id, m.dest);
    MergeAtOrigins(t, m.dest);
    RelocateOthers(s, m.id, m.dest);
    forall y | y in ApplyMove(s, m) && y.id != m.id
      ensures Sits(s, y.id, y.pos)
    {
      var x :| x in t && x.id == y.id && x.pos == y.pos;
      assert x in s;
    }
  }

  /** Every item that had no move recorded is still on the cell it stood on. */
  lemma {:induction false} ApplyMovesPlaces(s: seq<Item>, ms: seq<Move>)
    ensures forall y :: y in ApplyMoves(s, ms) && y.id !in MoveIds(ms) ==> Sits(s, y.id, y.pos)
    decreases |ms|
  {
    if ms != [] {
      var u := ApplyMove(s, ms[0]);
      ApplyMovePlaces(s, ms[0]);
      ApplyMovesPlaces(u, ms[1..]);
      assert MoveIds(ms) == {ms[0].id} + MoveIds(ms[1..]);
      forall y | y in ApplyMoves(s, ms) && y.id !in MoveIds(ms)
        ensures Sits(s, y.id, y.pos)
      {
        assert Sits(u, y.id, y.pos);
        var x :| x in u && x.id == y.id && x.pos == y.pos;
      }
    }
  }

  /** No two recorded moves are for the same item. */
  predicate DistinctMoveIds(ms: seq<Move>)
  {
    forall i, j :: 0 <= i < j < |ms| ==> ms[i].id != ms[j].id
  }

  /** Every item that had a move recorded, if it is still listed after all the moves, stands on
      that move's destination: its own move put it there, merges move nothing, and no later
      move is for it. */
  lemma {:induction false} ApplyMovesArrive(s: seq<Item>, ms: seq<Move>)
    requires DistinctMoveIds(ms)
    ensures forall y, m :: y in ApplyMoves(s, ms) && m in ms && m.id == y.id ==> y.pos == m.dest
    decreases |ms|
  {
    if ms != [] {
      var u := ApplyMove(s, ms[0]);
      DistinctTail(ms);
      ApplyMovesArrive(u, ms[1..]);
      ApplyMovesPlaces(u, ms[1..]);
      ApplyMoveArrives(s, ms[0]);
      forall y, m | y in ApplyMoves(s, ms) && m in ms && m.id == y.id
        ensures y.pos == m.dest
      {
        if m !in ms[1..] {
          assert Sits(u, y.id, y.pos);
        }
      }
    }
  }

  /** Dropping the first move keeps the rest distinct, and no later move shares its id. */
  lemma DistinctTail(ms: seq<Move>)
    requires ms != [] && DistinctMoveIds(ms)
    ensures DistinctMoveIds(ms[1..])
    ensures ms[0].id !in MoveIds(ms[1..])
    ensures forall m :: m in ms && m !in ms[1..] ==> m == ms[0]
  {
    var rest := ms[1..];
    forall i, j | 0 <= i < j < |rest| ensures rest[i].id != rest[j].id {
      assert rest[i] == ms[i + 1] && rest[j] == ms[j + 1];
    }
    forall m | m in rest ensures m.id != ms[0].id {
      var j :| 0 <= j < |rest| && rest[j] == m;
      assert ms[j + 1] == m;
    }
    assert ms == [ms[0]] + rest;
  }

  /** One move leaves every item with its id on its destination. */
  lemma ApplyMoveArrives(s: seq<Item>, m: Move)
    ensures forall y :: y in ApplyMove(s, m) && y.id == m.id ==> y.pos == m.dest
  {
    var t := Relocate(s, m.id, m.dest);
    RelocateArrives(s, m.id, m.dest);
    MergeAtOrigins(t, m.dest);
    forall y | y in ApplyMove(s, m) && y.id == m.id ensures y.pos == m.dest {
      var z :| z in t && z.id == y.id && z.pos == y.pos;
    }
  }

  /** Relocation puts every item with the given id on the destination. */
  lemma RelocateArrives(s: seq<Item>, id: nat, dest: Cell)
    ensures forall z :: z in Relocate(s, id, dest) && z.id == id ==> z.pos == dest
  {
    var t := Relocate(s, id, dest);
    forall z | z in t && z.id == id ensures z.pos == dest {
      var i :| 0 <= i < |t| && t[i] == z;
    }
  }

  /** Phases 2 and 3: upgrade and record on the list left by collection, then apply. */
  function MovePhase(s: State): State
  {
    s.(items := ApplyMoves(Prepare(s.items, s.grid, s.power), PlanMoves(s.items, s.grid)))
  }

  lemma MovePhaseSpec(s: State)
    ensures var r := MovePhase(s);
      && r == s.(items := r.items)
      && Total(r.items) == Total(s.items) + s.power * UpgradeCount(s.items, s.grid)
  {
    var p := Prepare(s.items, s.grid, s.power);
    PrepareTotal(s.items, s.grid, s.power);
    ApplyMovesTotal(p, PlanMoves(s.items, s.grid));
  }

  /** An item that stood on no conveyor or upgrader is, if it is still listed after phases 2
      and 3, on the cell it stood on. */
  lemma MovePhaseStays(s: State)
    ensures forall y :: y in MovePhase(s).items
                        && (forall x :: x in s.items && x.id == y.id ==> !Carried(x, s.grid))
                        ==> Sits(s.items, y.id, y.pos)
  {
    var p := Prepare(s.items, s.grid, s.power);
    var ms := PlanMoves(s.items, s.grid);
    PrepareSpec(s.items, s.grid, s.power);
    PlanMovesSpec(s.items, s.grid);
    ApplyMovesPlaces(p, ms);
    forall y | y in MovePhase(s).items && (forall x :: x in s.items && x.id == y.id ==> !Carried(x, s.grid))
      ensures Sits(s.items, y.id, y.pos)
    {
      forall m | m in ms ensures m.id != y.id {
        var x :| x in s.items && Carried(x, s.grid) && m == Move(x.id, Step(x.pos, s.grid[x.pos].direction));
      }
      assert y.id !in MoveIds(ms);
      var z :| z in p && z.id == y.id && z.pos == y.pos;
      var i :| 0 <= i < |p| && p[i] == z;
      assert s.items[i] in s.items;
    }
  }

  /** Phase 2 clears both marks on every item and phase 3 sets none, so after phases 2 and 3 no
      item carries a mark, whatever marks it had before. */
  lemma MovePhaseUnmarked(s: State)
    ensures Unmarked(MovePhase(s).items)
  {
    var p := Prepare(s.items, s.grid, s.power);
    PrepareSpec(s.items, s.grid, s.power);
    forall y | y in p ensures !y.processed && !y.merged {
      var i :| 0 <= i < |p| && p[i] == y;
    }
    ApplyMovesUnmarked(p, PlanMoves(s.items, s.grid));
  }

  /** Over a list with distinct ids, the moves are recorded for distinct items. */
  lemma {:induction false} PlanMovesDistinct(s: seq<Item>, g: map<Cell, Building>)
    requires UniqueIds(s)
    ensures DistinctMoveIds(PlanMoves(s, g))
  {
    if s != [] {
      var rest := s[1..];
      PlanMovesFront(s, g);
      PlanMovesDistinct(rest, g);
      PlanMovesIds(rest, g);
      assert s[0].id !in Ids(rest);
      DistinctAppend(MoveOf(s[0], g), PlanMoves(rest, g));
    }
  }

  lemma PlanMovesFront(s: seq<Item>, g: map<Cell, Building>)
    requires s != []
    ensures PlanMoves(s, g) == MoveOf(s[0], g) + PlanMoves(s[1..], g)
  {
    assert s == [s[0]] + s[1..];
    PlanMovesAppend([s[0]], s[1..], g);
    assert [s[0]][..0] == [];
  }

  lemma PlanMovesIds(s: seq<Item>, g: map<Cell, Building>)
    ensures forall m :: m in PlanMoves(s, g) ==> m.id in Ids(s)
  {
    PlanMovesSpec(s, g);
  }

  lemma DistinctAppend(a: seq<Move>, b: seq<Move>)
    requires DistinctMoveIds(a) && DistinctMoveIds(b)
    requires forall m, n :: m in a && n in b ==> m.id != n.id
    ensures DistinctMoveIds(a + b)
  {
    var ms := a + b;
    forall i, j | 0 <= i < j < |ms| ensures ms[i].id != ms[j].id {
      if j < |a| {
        assert ms[i] == a[i] && ms[j] == a[j];
      } else if i < |a| {
        assert ms[i] == a[i] && ms[j] == b[j - |a|];
      } else {
        assert ms[i] == b[i - |a|] && ms[j] == b[j - |a|];
      }
    }
  }

  /** Over a list with distinct ids, every item standing on a conveyor or upgrader is, if it is
      still listed after phases 2 and 3, one cell along that building's direction. */
  lemma MovePhaseArrive(s: State)
    requires UniqueIds(s.items)
    ensures forall x, y :: x in s.items && Carried(x, s.grid) && y in MovePhase(s).items && y.id == x.id
                           ==> y.pos == Step(x.pos, s.grid[x.pos].direction)
  {
    var p := Prepare(s.items, s.grid, s.power);
    var ms := PlanMoves(s.items, s.grid);
    PlanMovesSpec(s.items, s.grid);
    PlanMovesDistinct(s.items, s.grid);
    ApplyMovesArrive(p, ms);
    forall x, y | x in s.items && Carried(x, s.grid) && y in MovePhase(s).items && y.id == x.id
      ensures y.pos == Step(x.pos, s.grid[x.pos].direction)
    {
      assert Move(x.id, Step(x.pos, s.grid[x.pos].direction)) in ms;
    }
  }

  lemma MovePhaseConsistent(s: State)
    requires Consistent(s)
    ensures Consistent(MovePhase(s))
  {
    var p := Prepare(s.items, s.grid, s.power);
    var r := ApplyMoves(p, PlanMoves(s.items, s.grid));
    PrepareKeeps(s.items, s.grid, s.power);
    ApplyMovesIds(p, PlanMoves(s.items, s.grid));
    MovePhaseUnmarked(s);
    IdsBelow(s.items, s.nextId);
    assert forall y :: y in r ==> y.id in Ids(r);
  }

  /** Phase 2 keeps every id in place and, with a non-negative power, every value positive. */
  lemma PrepareKeeps(s: seq<Item>, g: map<Cell, Building>, power: int)
    requires AllPositive(s) && power >= 0
    ensures Ids(Prepare(s, g, power)) == Ids(s)
    ensures UniqueIds(Prepare(s, g, power)) == UniqueIds(s)
    ensures AllPositive(Prepare(s, g, power))
  {
    var p := Prepare(s, g, power);
    PrepareSpec(s, g, power);
    SameIds(p, s);
    forall y | y in p ensures y.value >= 1 {
      var i :| 0 <= i < |p| && p[i] == y;
      assert s[i] in s;
    }
  }

  // ---------------------------------------------------------------------------------------
  // Phase 4: factories (script.js:627-657)

  /** The neighbours a factory tries, in order: up, down, right, left. */
  function Neighbours(c: Cell): seq<Cell>
  {
    [Cell(c.x, c.y - 1), Cell(c.x, c.y + 1), Cell(c.x + 1, c.y), Cell(c.x - 1, c.y)]
  }

  predicate Outlet(g: map<Cell, Building>, c: Cell) { c in g && g[c].Receives() }

  /** The index of the first cell in ns that holds a conveyor or a collector. */
  function FirstOutlet(g: map<Cell, Building>, ns: seq<Cell>): (r: Option<nat>)
    ensures r.Some? ==> r.value < |ns| && Outlet(g, ns[r.value])
    ensures r.Some? ==> forall j :: 0 <= j < r.value ==> !Outlet(g, ns[j])
    ensures r.None? ==> forall j :: 0 <= j < |ns| ==> !Outlet(g, ns[j])
  {
    if ns == [] then None
    else if Outlet(g, ns[0]) then Some(0)
    else match FirstOutlet(g, ns[1..])
      case None => None
      case Some(k) => Some(k + 1)
  }

  /** Where the factory at c spawns, if anywhere. */
  function SpawnTarget(g: map<Cell, Building>, c: Cell): (r: Option<Cell>)
    ensures r.Some? ==> r.value in Neighbours(c) && Outlet(g, r.value)
    ensures r.None? ==> forall n :: n in Neighbours(c) ==> !Outlet(g, n)
  {
    match FirstOutlet(g, Neighbours(c))
    case None => None
    case Some(k) => Some(Neighbours(c)[k])
  }

  /** One factory's turn: its cooldown drops by one; at 0 or below it spawns a value-1 coin on
      its spawn target, merges there and restarts at 5, or, with no target, waits at 0. */
  function FactoryStep(s: State, key: Cell): State
  {
    if key in s.grid && s.grid[key].Factory? then
      var cd := s.grid[key].cooldown - 1;
      if cd > 0 then s.(grid := s.grid[key := Factory(cd)])
      else match SpawnTarget(s.grid, key)
        case None => s.(grid := s.grid[key := Factory(0)])
        case Some(n) =>
          s.(grid := s.grid[key := Factory(5)],
             items := MergeAt(s.items + [Coin(s.nextId, n)], n),
             nextId := s.nextId + 1)
    else s
  }

  function FactoryPhase(s: State, keys: seq<Cell>): State
    decreases |keys|
  {
    if keys == [] then s else FactoryPhase(FactoryStep(s, keys[0]), keys[1..])
  }

  lemma {:induction false} OnCellAppend(s: seq<Item>, x: Item, c: Cell)
    ensures OnCell(s + [x], c) == OnCell(s, c) + (if x.pos == c then [x] else [])
  {
    if s == [] {
      assert s + [x] == [x];
    } else {
      assert (s + [x])[1..] == s[1..] + [x];
      OnCellAppend(s[1..], x, c);
    }
  }

  /** The spawn rule of one factory: the cooldown becomes cd - 1 while that is positive; else
      the first of up, down, right, left holding a conveyor or collector receives one coin of
      value 1 (merged into what already stood there) and the cooldown becomes 5; with no such
      neighbour the cooldown becomes 0 and nothing spawns. No other building changes. */
  lemma FactoryStepSpec(s: State, key: Cell)
    requires key in s.grid && s.grid[key].Factory?
    ensures var r := FactoryStep(s, key);
      && r == s.(grid := r.grid, items := r.items, nextId := r.nextId)
      && r.grid == s.grid[key := r.grid[key]] && r.grid[key].Factory?
    ensures var r, cd := FactoryStep(s, key), s.grid[key].cooldown - 1;
      cd > 0 ==> r.grid[key].cooldown == cd && r.items == s.items && r.nextId == s.nextId
    ensures var r, cd := FactoryStep(s, key), s.grid[key].cooldown - 1;
      cd <= 0 && SpawnTarget(s.grid, key).None? ==>
        (forall n :: n in Neighbours(key) ==> !Outlet(s.grid, n))
        && r.grid[key].cooldown == 0 && r.items == s.items && r.nextId == s.nextId
    ensures var r, cd := FactoryStep(s, key), s.grid[key].cooldown - 1;
      cd <= 0 && SpawnTarget(s.grid, key).Some? ==>
        var n := SpawnTarget(s.grid, key).value;
        && Outlet(s.grid, n)
        && (exists k :: 0 <= k < 4 && n == Neighbours(key)[k]
                        && forall j :: 0 <= j < k ==> !Outlet(s.grid, Neighbours(key)[j]))
        && r.grid[key].cooldown == 5
        && r.nextId == s.nextId + 1
        && |OnCell(r.items, n)| == 1
        && OnCell(r.items, n)[0].value == Total(OnCell(s.items, n)) + 1
        && OffCell(r.items, n) == OffCell(s.items, n)
        && Total(r.items) == Total(s.items) + 1
  {
    var cd := s.grid[key].cooldown - 1;
    var t := SpawnTarget(s.grid, key);
    if cd <= 0 && t.Some? {
      var n := t.value;
      var k := FirstOutlet(s.grid, Neighbours(key)).value;
      assert n == Neighbours(key)[k];
      var coin := Coin(s.nextId, n);
      var grown := s.items + [coin];
      OnCellAppend(s.items, coin, n);
      MergeAtSpec(grown, n);
      TotalAppend(s.items, [coin]);
      TotalAppend(OnCell(s.items, n), [coin]);
      assert OffCell(grown, n) == OffCell(s.items, n) by {
        SplitAppendOff(s.items, coin, n);
      }
      SplitTotal(s.items, n);
      SplitTotal(grown, n);
    } else if cd <= 0 {
      forall n | n in Neighbours(key) ensures !Outlet(s.grid, n) {
        var j :| 0 <= j < 4 && Neighbours(key)[j] == n;
      }
    }
  }

  lemma {:induction false} SplitAppendOff(s: seq<Item>, x: Item, c: Cell)
    requires x.pos == c
    ensures OffCell(s + [x], c) == OffCell(s, c)
  {
    if s == [] {
      assert s + [x] == [x];
    } else {
      assert (s + [x])[1..] == s[1..] + [x];
      SplitAppendOff(s[1..], x, c);
    }
  }

  /** A spawned coin takes the next fresh id and carries no mark, so ids stay unique and below
      the new nextId and no mark is set. */
  lemma SpawnConsistent(items: seq<Item>, nextId: nat, n: Cell)
    requires UniqueIds(items) && Unmarked(items)
    requires forall x :: x in items ==> x.id < nextId && x.value >= 1
    ensures var r := MergeAt(items + [Coin(nextId, n)], n);
      && UniqueIds(r) && Unmarked(r)
      && forall y :: y in r ==> y.id < nextId + 1 && y.value >= 1
  {
    var coin := Coin(nextId, n);
    var grown := items + [coin];
    assert coin.id !in Ids(items);
    AppendFresh(items, coin);
    MergeAtKeeps(grown, n);
    MergeAtUnmarked(grown, n);
    assert AllPositive(grown);
    var r := MergeAt(grown, n);
    forall y | y in r ensures y.id < nextId + 1 {
      assert y.id in Ids(grown);
    }
  }

  lemma FactoryStepConsistent(s: State, key: Cell)
    requires Consistent(s)
    ensures Consistent(FactoryStep(s, key))
    ensures FactoryStep(s, key).nextId >= s.nextId
  {
    if key in s.grid && s.grid[key].Factory? && s.grid[key].cooldown - 1 <= 0
       && SpawnTarget(s.grid, key).Some? {
      SpawnConsistent(s.items, s.nextId, SpawnTarget(s.grid, key).value);
    }
  }

  /** The factory phase only retimes factories and adds coins: the layout and every other
      building stay as they were, and the list gains exactly one unit of value per new id. */
  lemma {:induction false} FactoryPhaseSpec(s: State, keys: seq<Cell>)
    ensures var r := FactoryPhase(s, keys);
      && r == s.(grid := r.grid, items := r.items, nextId := r.nextId)
      && r.grid.Keys == s.grid.Keys
      && (forall c :: c in s.grid && !s.grid[c].Factory? ==> r.grid[c] == s.grid[c])
      && (forall c :: c in s.grid && s.grid[c].Factory? ==> r.grid[c].Factory?)
      && r.nextId >= s.nextId
      && Total(r.items) == Total(s.items) + (r.nextId - s.nextId)
    ensures Consistent(s) ==> Consistent(FactoryPhase(s, keys))
    decreases |keys|
  {
    if keys != [] {
      var key := keys[0];
      var t := FactoryStep(s, key);
      if key in s.grid && s.grid[key].Factory? {
        FactoryStepSpec(s, key);
      }
      FactoryPhaseSpec(t, keys[1..]);
      if Consistent(s) {
        FactoryStepConsistent(s, key);
      }
    }
  }

  lemma {:induction false} FirstOutletSame(g: map<Cell, Building>, h: map<Cell, Building>, ns: seq<Cell>)
    requires forall c :: Outlet(g, c) <==> Outlet(h, c)
    ensures FirstOutlet(g, ns) == FirstOutlet(h, ns)
  {
    if ns != [] {
      FirstOutletSame(g, h, ns[1..]);
    }
  }

  /** A factory's turn rewrites only its own cell, and only with another factory: no conveyor
      or collector appears or disappears, so every spawn target stays where it was. */
  lemma FactoryStepFrame(s: State, key: Cell)
    ensures var r := FactoryStep(s, key);
      && r.nextId >= s.nextId
      && (forall c :: c != key ==> (c in r.grid <==> c in s.grid))
      && (forall c :: c != key && c in s.grid ==> r.grid[c] == s.grid[c])
      && (forall f :: SpawnTarget(r.grid, f) == SpawnTarget(s.grid, f))
  {
    var g := FactoryStep(s, key).grid;
    FactoryStepOutlets(s, key);
    forall f ensures SpawnTarget(g, f) == SpawnTarget(s.grid, f) {
      FirstOutletSame(g, s.grid, Neighbours(f));
    }
  }

  lemma FactoryStepOutlets(s: State, key: Cell)
    ensures forall c :: Outlet(FactoryStep(s, key).grid, c) <==> Outlet(s.grid, c)
  {
    if key in s.grid && s.grid[key].Factory? {
      var g := FactoryStep(s, key).grid;
      assert g == s.grid[key := g[key]] && g[key].Factory?;
    }
  }

  /** A cell the phase does not visit keeps its building, and no spawn target moves. */
  lemma {:induction false} FactoryPhaseFrame(s: State, keys: seq<Cell>, f: Cell)
    ensures var r := FactoryPhase(s, keys);
      && r.nextId >= s.nextId
      && (forall n :: SpawnTarget(r.grid, n) == SpawnTarget(s.grid, n))
      && (f !in keys && f in s.grid ==> f in r.grid && r.grid[f] == s.grid[f])
    decreases |keys|
  {
    if keys != [] {
      FactoryStepFrame(s, keys[0]);
      FactoryPhaseFrame(FactoryStep(s, keys[0]), keys[1..], f);
      if f !in keys {
        assert f != keys[0];
      }
    }
  }

  /** A factory's turn adds at most one coin, with a fresh id; every other coin it leaves stands
      where a coin with its id stood. */
  lemma FactoryStepOrigins(s: State, key: Cell)
    ensures forall y :: y in FactoryStep(s, key).items ==> y.id >= s.nextId || Sits(s.items, y.id, y.pos)
  {
    if key in s.grid && s.grid[key].Factory? && s.grid[key].cooldown - 1 <= 0
       && SpawnTarget(s.grid, key).Some? {
      var n := SpawnTarget(s.grid, key).value;
      var grown := s.items + [Coin(s.nextId, n)];
      MergeAtOrigins(grown, n);
      forall y | y in FactoryStep(s, key).items ensures y.id >= s.nextId || Sits(s.items, y.id, y.pos) {
        var x :| x in grown && x.id == y.id && x.pos == y.pos;
      }
    }
  }

  /** The factory phase only adds coins with fresh ids and moves none. */
  lemma {:induction false} FactoryPhaseOrigins(s: State, keys: seq<Cell>)
    ensures forall y :: y in FactoryPhase(s, keys).items ==> y.id >= s.nextId || Sits(s.items, y.id, y.pos)
    decreases |keys|
  {
    if keys != [] {
      var t := FactoryStep(s, keys[0]);
      FactoryStepOrigins(s, keys[0]);
      FactoryStepFrame(s, keys[0]);
      FactoryPhaseOrigins(t, keys[1..]);
      forall y | y in FactoryPhase(s, keys).items && y.id < s.nextId ensures Sits(s.items, y.id, y.pos) {
        var x :| x in t.items && x.id == y.id && x.pos == y.pos;
      }
    }
  }

  /** The factory rule over a whole phase: each listed factory, visited once, ends with its
      cooldown less one while that stays positive; otherwise 5 when one of its neighbours
      is a conveyor or collector, and then a coin was spawned; otherwise 0, stalled. */
  lemma {:induction false} FactoryPhaseRule(s: State, keys: seq<Cell>, f: Cell)
    requires NoDuplicates(keys) && f in keys
    requires f in s.grid && s.grid[f].Factory?
    ensures var r, cd := FactoryPhase(s, keys), s.grid[f].cooldown - 1;
      && f in r.grid
      && r.grid[f] == Factory(if cd > 0 then cd else if SpawnTarget(s.grid, f).Some? then 5 else 0)
      && (cd <= 0 && SpawnTarget(s.grid, f).Some? ==> r.nextId > s.nextId)
    decreases |keys|
  {
    var t := FactoryStep(s, keys[0]);
    NoDuplicatesTail(keys);
    FactoryStepFrame(s, keys[0]);
    if keys[0] == f {
      FactoryStepSpec(s, f);
      FactoryPhaseFrame(t, keys[1..], f);
    } else {
      assert f in keys[1..] by {
        assert keys == [keys[0]] + keys[1..];
      }
      FactoryPhaseRule(t, keys[1..], f);
    }
  }

  // ---------------------------------------------------------------------------------------
  // Phase 5: generators (script.js:660-665)

  function GeneratorStep(s: State, key: Cell): (r: State)
    ensures r == s.(inventory := r.inventory)
    ensures key in s.grid && s.grid[key].Generator? ==> r.inventory == s.inventory.Credit(s.grid[key].resourceType)
    ensures !(key in s.grid && s.grid[key].Generator?) ==> r == s
  {
    if key in s.grid && s.grid[key].Generator?
    then s.(inventory := s.inventory.Credit(s.grid[key].resourceType))
    else s
  }

  function GeneratorPhase(s: State, keys: seq<Cell>): State
    decreases |keys|
  {
    if keys == [] then s else GeneratorPhase(GeneratorStep(s, keys[0]), keys[1..])
  }

  /** How many of the listed cells hold a generator built on a deposit of type t. */
  function GeneratorCount(g: map<Cell, Building>, keys: seq<Cell>, t: ResourceType): nat
  {
    if keys == [] then 0
    else (if keys[0] in g && g[keys[0]] == Generator(t) then 1 else 0) + GeneratorCount(g, keys[1..], t)
  }

  /** Each listed generator adds exactly one unit of its resource type; no other count and no
      other part of the state changes. */
  lemma {:induction false} GeneratorPhaseSpec(s: State, keys: seq<Cell>)
    ensures var r := GeneratorPhase(s, keys);
      && r == s.(inventory := r.inventory)
      && r.inventory.iron == s.inventory.iron + GeneratorCount(s.grid, keys, Iron)
      && r.inventory.copper == s.inventory.copper + GeneratorCount(s.grid, keys, Copper)
      && r.inventory.factory == s.inventory.factory
      && r.inventory.upgrader == s.inventory.upgrader
      && r.inventory.generator == s.inventory.generator
    ensures Consistent(s) ==> Consistent(GeneratorPhase(s, keys))
    decreases |keys|
  {
    if keys != [] {
      GeneratorPhaseSpec(GeneratorStep(s, keys[0]), keys[1..]);
    }
  }

  predicate NoDuplicates(keys: seq<Cell>)
  {
    forall i, j :: 0 <= i < j < |keys| ==> keys[i] != keys[j]
  }

  /** The cells of g that hold a generator of type t. */
  function GeneratorCells(g: map<Cell, Building>, t: ResourceType): set<Cell>
  {
    set c | c in g && g[c] == Generator(t)
  }

  /** The listed cells that hold a generator of type t. */
  function ListedGenerators(g: map<Cell, Building>, keys: seq<Cell>, t: ResourceType): set<Cell>
  {
    set c | c in keys && c in g && g[c] == Generator(t)
  }

  lemma NoDuplicatesTail(keys: seq<Cell>)
    requires keys != [] && NoDuplicates(keys)
    ensures NoDuplicates(keys[1..]) && keys[0] !in keys[1..]
  {
    var rest := keys[1..];
    forall i, j | 0 <= i < j < |rest| ensures rest[i] != rest[j] {
      assert rest[i] == keys[i + 1] && rest[j] == keys[j + 1];
    }
    forall j | 0 <= j < |rest| ensures rest[j] != keys[0] {
      assert rest[j] == keys[j + 1];
    }
  }

  lemma ListedGeneratorsSplit(g: map<Cell, Building>, keys: seq<Cell>, t: ResourceType)
    requires keys != [] && keys[0] !in keys[1..]
    ensures ListedGenerators(g, keys, t)
         == (if keys[0] in g && g[keys[0]] == Generator(t) then {keys[0]} else {})
            + ListedGenerators(g, keys[1..], t)
    ensures keys[0] !in ListedGenerators(g, keys[1..], t)
  {
    assert keys == [keys[0]] + keys[1..];
  }

  /** Over a duplicate-free key list, the count is the number of such cells among the keys. */
  lemma {:induction false} GeneratorCountIsCardinality(g: map<Cell, Building>, keys: seq<Cell>, t: ResourceType)
    requires NoDuplicates(keys)
    ensures GeneratorCount(g, keys, t) == |ListedGenerators(g, keys, t)|
  {
    if keys != [] {
      NoDuplicatesTail(keys);
      GeneratorCountIsCardinality(g, keys[1..], t);
      ListedGeneratorsSplit(g, keys, t);
    }
  }

  /** Factories keep every generator where it is, so the generator count is unchanged. */
  lemma {:induction false} GeneratorCountSame(g: map<Cell, Building>, h: map<Cell, Building>, keys: seq<Cell>, t: ResourceType)
    requires h.Keys == g.Keys
    requires forall c :: c in g && !g[c].Factory? ==> h[c] == g[c]
    requires forall c :: c in g && g[c].Factory? ==> h[c].Factory?
    ensures GeneratorCount(h, keys, t) == GeneratorCount(g, keys, t)
  {
    if keys != [] {
      GeneratorCountSame(g, h, keys[1..], t);
    }
  }

  // ---------------------------------------------------------------------------------------
  // The whole tick (script.js:575-671)

  /** keys lists every cell of the grid exactly once: the grid's iteration order. */
  predicate Enumerates(keys: seq<Cell>, g: map<Cell, Building>)
  {
    && NoDuplicates(keys)
    && (forall c :: c in keys ==> c in g)
    && (forall c :: c in g ==> c in keys)
  }

  function Tick(s: State, keys: seq<Cell>): State
  {
    GeneratorPhase(FactoryPhase(MovePhase(CollectPhase(s)), keys), keys)
  }

  /** A tick keeps the state consistent. */
  lemma TickConsistent(s: State, keys: seq<Cell>)
    requires Consistent(s)
    ensures Consistent(Tick(s, keys))
  {
    CollectPhaseSpec(s);
    MovePhaseConsistent(CollectPhase(s));
    FactoryPhaseSpec(MovePhase(CollectPhase(s)), keys);
    GeneratorPhaseSpec(FactoryPhase(MovePhase(CollectPhase(s)), keys), keys);
  }

  /** The value books of one tick: the score grows by exactly the value collected, and score
      plus the value still in flight grows by exactly power per upgraded item plus one per
      spawned coin. The layout, the deposits, the chunks and the prices are untouched. */
  lemma TickBalance(s: State, keys: seq<Cell>)
    ensures var r := Tick(s, keys);
      && r.score == s.score + Total(Collected(s.items, s.grid))
      && r.score + Total(r.items)
         == s.score + Total(s.items)
            + s.power * UpgradeCount(Uncollected(s.items, s.grid), s.grid)
            + (r.nextId - s.nextId)
      && r.nextId >= s.nextId
      && r.grid.Keys == s.grid.Keys
      && (forall c :: c in s.grid && !s.grid[c].Factory? ==> r.grid[c] == s.grid[c])
      && r.resources == s.resources && r.chunks == s.chunks
      && r.power == s.power && r.cost == s.cost
  {
    var s1 := CollectPhase(s);
    var s2 := MovePhase(s1);
    var s3 := FactoryPhase(s2, keys);
    CollectPhaseSpec(s);
    MovePhaseSpec(s1);
    FactoryPhaseSpec(s2, keys);
    GeneratorPhaseSpec(s3, keys);
  }

  /** In a consistent state no coin carries a mark, so the value a tick adds through upgrades is
      power for every coin left by collection that stands on an upgrader. */
  lemma TickUpgradesEveryCoin(s: State, keys: seq<Cell>)
    requires Consistent(s)
    ensures var r, kept := Tick(s, keys), Uncollected(s.items, s.grid);
      r.score + Total(r.items)
      == s.score + Total(s.items) + s.power * |UpgraderSlots(kept, s.grid)| + (r.nextId - s.nextId)
  {
    var kept := Uncollected(s.items, s.grid);
    TickBalance(s, keys);
    CollectionMembers(s.items, s.grid);
    UpgradeCountSlots(kept, s.grid);
  }

  /** A tick carries every coin standing on a conveyor or upgrader one cell along that building's
      direction: if the coin is still listed after the tick, it stands there. */
  lemma TickMoves(s: State, keys: seq<Cell>)
    requires Consistent(s)
    ensures forall x, y :: x in s.items && Carried(x, s.grid) && y in Tick(s, keys).items && y.id == x.id
                           ==> y.pos == Step(x.pos, s.grid[x.pos].direction)
  {
    var s1 := CollectPhase(s);
    var s2 := MovePhase(s1);
    var s3 := FactoryPhase(s2, keys);
    CollectPhaseSpec(s);
    MovePhaseArrive(s1);
    MovePhaseSpec(s1);
    FactoryPhaseOrigins(s2, keys);
    GeneratorPhaseSpec(s3, keys);
    forall x, y | x in s.items && Carried(x, s.grid) && y in Tick(s, keys).items && y.id == x.id
      ensures y.pos == Step(x.pos, s.grid[x.pos].direction)
    {
      assert x in s1.items;
      var z :| z in s2.items && z.id == y.id && z.pos == y.pos;
    }
  }

  /** The factory rule over a whole tick, for the grid's own key order: phases 1 to 3 move no
      building, so every factory follows its rule against the grid it started the tick with. */
  lemma TickFactoryRule(s: State, keys: seq<Cell>, f: Cell)
    requires Enumerates(keys, s.grid)
    requires f in s.grid && s.grid[f].Factory?
    ensures var r, cd := Tick(s, keys), s.grid[f].cooldown - 1;
      && f in r.grid
      && r.grid[f] == Factory(if cd > 0 then cd else if SpawnTarget(s.grid, f).Some? then 5 else 0)
      && (cd <= 0 && SpawnTarget(s.grid, f).Some? ==> r.nextId > s.nextId)
  {
    var s2 := MovePhase(CollectPhase(s));
    CollectPhaseSpec(s);
    MovePhaseSpec(CollectPhase(s));
    FactoryPhaseRule(s2, keys, f);
    GeneratorPhaseSpec(FactoryPhase(s2, keys), keys);
  }

  /** Over the grid's own key order, a tick adds to each resource count exactly the number of
      generators built on that resource type, and leaves the building counts alone. */
  lemma TickIncome(s: State, keys: seq<Cell>)
    requires Enumerates(keys, s.grid)
    ensures var r := Tick(s, keys);
      && r.inventory.iron == s.inventory.iron + |GeneratorCells(s.grid, Iron)|
      && r.inventory.copper == s.inventory.copper + |GeneratorCells(s.grid, Copper)|
      && r.inventory.factory == s.inventory.factory
      && r.inventory.upgrader == s.inventory.upgrader
      && r.inventory.generator == s.inventory.generator
  {
    var s2 := MovePhase(CollectPhase(s));
    var s3 := FactoryPhase(s2, keys);
    CollectPhaseSpec(s);
    MovePhaseSpec(CollectPhase(s));
    FactoryPhaseSpec(s2, keys);
    GeneratorPhaseSpec(s3, keys);
    forall t: ResourceType
      ensures GeneratorCount(s3.grid, keys, t) == |GeneratorCells(s.grid, t)|
    {
      GeneratorCountSame(s.grid, s3.grid, keys, t);
      GeneratorCountIsCardinality(s.grid, keys, t);
      assert ListedGenerators(s.grid, keys, t) == GeneratorCells(s.grid, t);
    }
  }

  // ---------------------------------------------------------------------------------------
  // A worked scenario: a factory at (0,0) and a conveyor above it, at (0,-1), pointing down (2)

  const Origin := Cell(0, 0)
  const Above := Cell(0, -1)

  lemma AboveIsFirstOutlet(g: map<Cell, Building>)
    requires Above in g && g[Above] == Conveyor(2)
    ensures SpawnTarget(g, Origin) == Some(Above)
  {
    assert Neighbours(Origin)[0] == Above;
  }

  /** With no coin on the map, phases 1 to 3 change nothing. */
  lemma NoCoinsNoMoves(s: State)
    requires s.items == []
    ensures MovePhase(CollectPhase(s)) == s
  {
    assert Prepare([], s.grid, s.power) == [];
  }

  /** The first tick after the factory is placed (cooldown 0) spawns a value-1 coin on the
      conveyor and restarts the factory at 5. */
  lemma ScenarioFirstTick(s: State, keys: seq<Cell>)
    requires s.grid == map[Origin := Factory(0), Above := Conveyor(2)] && s.items == []
    requires keys == [Origin, Above]
    ensures Tick(s, keys) == s.(grid := s.grid[Origin := Factory(5)],
                                items := [Coin(s.nextId, Above)], nextId := s.nextId + 1)
  {
    NoCoinsNoMoves(s);
    AboveIsFirstOutlet(s.grid);
    var coin := Coin(s.nextId, Above);
    assert OnCell([coin], Above) == [coin];
    var a := FactoryStep(s, Origin);
    assert a == s.(grid := s.grid[Origin := Factory(5)], items := [coin], nextId := s.nextId + 1);
    assert keys[1..] == [Above] && keys[1..][1..] == [];
    assert FactoryPhase(s, keys) == FactoryPhase(a, [Above]) == a;
    assert GeneratorPhase(a, keys) == GeneratorPhase(a, [Above]) == a;
  }

  /** The second tick carries the coin down onto the factory's own cell, where no building
      moves it, while the factory counts down to 4. */
  lemma ScenarioSecondTick(s: State, keys: seq<Cell>, id: nat)
    requires s.grid == map[Origin := Factory(5), Above := Conveyor(2)] && s.items == [Coin(id, Above)]
    requires keys == [Origin, Above]
    ensures Tick(s, keys) == s.(grid := s.grid[Origin := Factory(4)], items := [Coin(id, Origin)])
  {
    var coin, moved := Coin(id, Above), Coin(id, Origin);
    assert [coin][..0] == [] && [coin][1..] == [];
    assert CollectPhase(s) == s by {
      assert Uncollected([coin], s.grid) == [coin];
      assert Collected([coin], s.grid) == [];
    }
    assert Prepare([coin], s.grid, s.power) == [coin];
    assert PlanMoves([coin], s.grid) == [Move(id, Origin)];
    assert ApplyMoves([coin], [Move(id, Origin)]) == [moved] by {
      assert Relocate([coin], id, Origin) == [moved];
      assert OnCell([moved], Origin) == [moved];
    }
    var m := MovePhase(s);
    assert m == s.(items := [moved]);
    var b := FactoryStep(m, Origin);
    assert b == s.(grid := s.grid[Origin := Factory(4)], items := [moved]);
    assert keys[1..] == [Above] && keys[1..][1..] == [];
    assert FactoryPhase(m, keys) == FactoryPhase(b, [Above]) == b;
    assert GeneratorPhase(b, keys) == GeneratorPhase(b, [Above]) == b;
  }

  /** Later ticks only count the factory down: the coin stays on the factory's cell. So after
      five ticks the only coin, of value 1, stands on (0,0) and the conveyor is empty. */
  lemma ScenarioLaterTick(s: State, keys: seq<Cell>, id: nat, cooldown: int)
    requires cooldown > 1
    requires s.grid == map[Origin := Factory(cooldown), Above := Conveyor(2)] && s.items == [Coin(id, Origin)]
    requires keys == [Origin, Above]
    ensures Tick(s, keys) == s.(grid := s.grid[Origin := Factory(cooldown - 1)])
  {
    var coin := Coin(id, Origin);
    assert [coin][..0] == [] && [coin][1..] == [];
    assert CollectPhase(s) == s by {
      assert Uncollected([coin], s.grid) == [coin];
      assert Collected([coin], s.grid) == [];
    }
    assert Prepare([coin], s.grid, s.power) == [coin];
    assert PlanMoves([coin], s.grid) == [];
    assert MovePhase(s) == s;
    var b := FactoryStep(s, Origin);
    assert b == s.(grid := s.grid[Origin := Factory(cooldown - 1)]);
    assert keys[1..] == [Above] && keys[1..][1..] == [];
    assert FactoryPhase(s, keys) == FactoryPhase(b, [Above]) == b;
    assert GeneratorPhase(b, keys) == GeneratorPhase(b, [Above]) == b;
  }
}
