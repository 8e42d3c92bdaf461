/** Items ("coins") in flight and the merge rule that folds the items on one cell into one. */
module Coins {
  import opened Grid

  /** A coin. The source compares coin objects by identity; `id` stands for that identity
      (every coin is created with a fresh one). The two flags are the source's per-tick marks. */
  datatype Item = Item(id: nat, pos: Cell, value: int, processed: bool, merged: bool)

  /** A freshly spawned coin of value 1. */
  function Coin(id: nat, c: Cell): Item { Item(id, c, 1, false, false) }

  /** The summed value of a list of items. */
  function Total(s: seq<Item>): int
  {
    if s == [] then 0 else s[0].value + Total(s[1..])
  }

  lemma {:induction false} TotalAppend(a: seq<Item>, b: seq<Item>)
    ensures Total(a + b) == Total(a) + Total(b)
  {
    if a == [] {
      assert a + b == b;
    } else {
      assert (a + b)[1..] == a[1..] + b;
      TotalAppend(a[1..], b);
    }
  }

  predicate AllPositive(s: seq<Item>) { forall x :: x in s ==> x.value >= 1 }

  lemma {:induction false} TotalOfPositive(s: seq<Item>)
    requires AllPositive(s)
    ensures s != [] ==> Total(s) >= s[0].value
    ensures Total(s) >= |s|
  {
    if s != [] {
      assert forall x :: x in s[1..] ==> x in s;
      TotalOfPositive(s[1..]);
    }
  }

  /** r is s with some elements deleted: same elements, same relative order. */
  predicate Sublist(r: seq<Item>, s: seq<Item>)
    decreases |s|
  {
    if s == [] then r == []
    else (r != [] && r[0] == s[0] && Sublist(r[1..], s[1..])) || Sublist(r, s[1..])
  }

  /** The set of ids in a list. */
  function Ids(s: seq<Item>): (r: set<nat>)
    ensures forall x :: x in s ==> x.id in r
    ensures forall i :: i in r ==> exists x :: x in s && x.id == i
  {
    if s == [] then {} else {s[0].id} + Ids(s[1..])
  }

  /** When every item's id is below n, so is every id of the list. */
  lemma IdsBelow(s: seq<Item>, n: nat)
    requires forall x :: x in s ==> x.id < n
    ensures forall i :: i in Ids(s) ==> i < n
  {
    forall i | i in Ids(s) ensures i < n {
      var x :| x in s && x.id == i;
    }
  }

  /** No two items share an id: each coin object is in the list once. */
  predicate UniqueIds(s: seq<Item>)
  {
    s == [] || (s[0].id !in Ids(s[1..]) && UniqueIds(s[1..]))
  }

  lemma {:induction false} SublistMembers(r: seq<Item>, s: seq<Item>)
    requires Sublist(r, s)
    ensures forall x :: x in r ==> x in s
    ensures Ids(r) <= Ids(s)
    ensures UniqueIds(s) ==> UniqueIds(r)
    decreases |s|
  {
    if s == [] {
    } else if r != [] && r[0] == s[0] && Sublist(r[1..], s[1..]) {
      SublistMembers(r[1..], s[1..]);
      assert r == [r[0]] + r[1..];
    } else {
      SublistMembers(r, s[1..]);
    }
  }

  /** The items standing on c, in list order. */
  function OnCell(s: seq<Item>, c: Cell): (r: seq<Item>)
    ensures forall x :: x in r <==> x in s && x.pos == c
  {
    if s == [] then []
    else if s[0].pos == c then [s[0]] + OnCell(s[1..], c)
    else OnCell(s[1..], c)
  }

  /** The items standing anywhere but c, in list order. */
  function OffCell(s: seq<Item>, c: Cell): (r: seq<Item>)
    ensures forall x :: x in r <==> x in s && x.pos != c
  {
    if s == [] then []
    else if s[0].pos == c then OffCell(s[1..], c)
    else [s[0]] + OffCell(s[1..], c)
  }

  /** The items off c keep their relative order. */
  lemma {:induction false} OffCellSublist(s: seq<Item>, c: Cell)
    ensures Sublist(OffCell(s, c), s)
  {
    if s != [] {
      OffCellSublist(s[1..], c);
      if s[0].pos != c {
        assert OffCell(s, c)[1..] == OffCell(s[1..], c);
      }
    }
  }

  /** Appending an item extends the items off c by it exactly when it is off c. */
  lemma {:induction false} OffCellAppend(s: seq<Item>, x: Item, c: Cell)
    ensures OffCell(s + [x], c) == OffCell(s, c) + (if x.pos != c then [x] else [])
  {
    if s == [] {
      assert s + [x] == [x];
    } else {
      assert (s + [x])[1..] == s[1..] + [x];
      OffCellAppend(s[1..], x, c);
    }
  }

  /** Every item is on c or off it, so the value of a list splits between the two. */
  lemma {:induction false} SplitTotal(s: seq<Item>, c: Cell)
    ensures Total(s) == Total(OnCell(s, c)) + Total(OffCell(s, c))
  {
    if s != [] {
      SplitTotal(s[1..], c);
    }
  }

  /** The earliest item on c takes value `total`; every later item on c is dropped. */
  function KeepFirst(s: seq<Item>, c: Cell, total: int): seq<Item>
  {
    if s == [] then []
    else if s[0].pos == c then [s[0].(value := total)] + OffCell(s[1..], c)
    else [s[0]] + KeepFirst(s[1..], c, total)
  }

  /** checkAndMergeAt(x, y): when more than one item stands on c, the earliest of them takes
      the summed value and the others leave the list. */
  function MergeAt(s: seq<Item>, c: Cell): seq<Item>
  {
    var here := OnCell(s, c);
    if |here| > 1 then KeepFirst(s, c, Total(here)) else s
  }

  lemma {:induction false} OffCellTwice(s: seq<Item>, c: Cell)
    ensures OnCell(OffCell(s, c), c) == []
    ensures OffCell(OffCell(s, c), c) == OffCell(s, c)
  {
    if s != [] {
      OffCellTwice(s[1..], c);
    }
  }

  lemma {:induction false} KeepFirstOnCell(s: seq<Item>, c: Cell, total: int)
    ensures OnCell(KeepFirst(s, c, total), c)
         == if OnCell(s, c) == [] then [] else [OnCell(s, c)[0].(value := total)]
    ensures OffCell(KeepFirst(s, c, total), c) == OffCell(s, c)
  {
    if s != [] {
      if s[0].pos == c {
        var t := s[0].(value := total);
        OffCellTwice(s[1..], c);
        assert ([t] + OffCell(s[1..], c))[1..] == OffCell(s[1..], c);
      } else {
        KeepFirstOnCell(s[1..], c, total);
        assert ([s[0]] + KeepFirst(s[1..], c, total))[1..] == KeepFirst(s[1..], c, total);
      }
    }
  }

  /** The earliest item on c keeps its place in the list: everything before it is kept as it
      was, and everything after it is kept unless it stands on c. */
  lemma {:induction false} KeepFirstPlace(s: seq<Item>, c: Cell, total: int) returns (k: nat)
    requires OnCell(s, c) != []
    ensures k < |s| && OnCell(s[..k], c) == [] && s[k].pos == c
    ensures KeepFirst(s, c, total) == s[..k] + [s[k].(value := total)] + OffCell(s[k + 1..], c)
  {
    if s[0].pos == c {
      k := 0;
      KeepFirstHead(s, c, total);
    } else {
      assert OnCell(s[1..], c) == OnCell(s, c);
      var j := KeepFirstPlace(s[1..], c, total);
      k := j + 1;
      KeepFirstPass(s, c, total, j);
    }
  }

  /** The earliest item on c is the first one. */
  lemma KeepFirstHead(s: seq<Item>, c: Cell, total: int)
    requires s != [] && s[0].pos == c
    ensures OnCell(s[..0], c) == []
    ensures KeepFirst(s, c, total) == s[..0] + [s[0].(value := total)] + OffCell(s[1..], c)
  {
    assert s[..0] == [];
  }

  /** Passing over a first item off c moves the place found in the tail one to the right. */
  lemma KeepFirstPass(s: seq<Item>, c: Cell, total: int, j: nat)
    requires s != [] && s[0].pos != c && j < |s| - 1
    requires OnCell(s[1..][..j], c) == [] && s[1..][j].pos == c
    requires KeepFirst(s[1..], c, total) == s[1..][..j] + [s[1..][j].(value := total)] + OffCell(s[1..][j + 1..], c)
    ensures OnCell(s[..j + 1], c) == [] && s[j + 1].pos == c
    ensures KeepFirst(s, c, total) == s[..j + 1] + [s[j + 1].(value := total)] + OffCell(s[j + 2..], c)
  {
    PassOver(s, j);
    OnCellSkip(s[0], s[1..][..j], c);
    assert KeepFirst(s, c, total) == [s[0]] + KeepFirst(s[1..], c, total);
    Regroup(s[0], s[1..][..j], s[j + 1].(value := total), OffCell(s[j + 2..], c));
  }

  /** An item off c contributes nothing to the items on c. */
  lemma OnCellSkip(x: Item, t: seq<Item>, c: Cell)
    requires x.pos != c
    ensures OnCell([x] + t, c) == OnCell(t, c)
  {
    assert ([x] + t)[1..] == t;
  }

  lemma Regroup(x: Item, a: seq<Item>, y: Item, b: seq<Item>)
    ensures [x] + (a + [y] + b) == ([x] + a) + [y] + b
  {
  }

  /** Index j of the tail is index j + 1 of the list. */
  lemma PassOver(s: seq<Item>, j: nat)
    requires j + 1 < |s|
    ensures s[..j + 1] == [s[0]] + s[1..][..j]
    ensures s[j + 1] == s[1..][j] && s[j + 2..] == s[1..][j + 1..]
  {
  }

  /** After a merge at c exactly the earliest item on c is left there, holding the sum of the
      values that stood there; no item on another cell changes, moves or is reordered. */
  lemma MergeAtSpec(s: seq<Item>, c: Cell)
    ensures OnCell(MergeAt(s, c), c)
         == if OnCell(s, c) == [] then [] else [OnCell(s, c)[0].(value := Total(OnCell(s, c)))]
    ensures |OnCell(MergeAt(s, c), c)| <= 1
    ensures OffCell(MergeAt(s, c), c) == OffCell(s, c)
    ensures Total(MergeAt(s, c)) == Total(s)
    ensures |OnCell(s, c)| <= 1 ==> MergeAt(s, c) == s
    ensures |OnCell(s, c)| > 1 ==>
      exists k :: 0 <= k < |s| && OnCell(s[..k], c) == [] && s[k].pos == c
                  && MergeAt(s, c) == s[..k] + [s[k].(value := Total(OnCell(s, c)))] + OffCell(s[k + 1..], c)
  {
    var here := OnCell(s, c);
    if |here| > 1 {
      var k := KeepFirstPlace(s, c, Total(here));
      KeepFirstOnCell(s, c, Total(here));
    } else if |here| == 1 {
      assert Total(here) == here[0].value + Total(here[1..]);
      assert here[0].(value := Total(here)) == here[0];
    }
    SplitTotal(s, c);
    SplitTotal(MergeAt(s, c), c);
  }

  /** Merging keeps ids unique: the items left are among those there before. */
  lemma {:induction false} KeepFirstIds(s: seq<Item>, c: Cell, total: int)
    ensures Ids(KeepFirst(s, c, total)) <= Ids(s)
    ensures UniqueIds(s) ==> UniqueIds(KeepFirst(s, c, total))
  {
    if s != [] {
      var r := KeepFirst(s, c, total);
      if s[0].pos == c {
        OffCellSublist(s[1..], c);
        SublistMembers(OffCell(s[1..], c), s[1..]);
        assert r[1..] == OffCell(s[1..], c);
      } else {
        KeepFirstIds(s[1..], c, total);
        assert r[1..] == KeepFirst(s[1..], c, total);
      }
    }
  }

  /** Every item left by a merge keeps the id and the cell of an item that was there before;
      only the survivor on c changes its value. */
  lemma {:induction false} KeepFirstOrigins(s: seq<Item>, c: Cell, total: int)
    ensures forall y :: y in KeepFirst(s, c, total) ==>
              exists x :: x in s && x.id == y.id && x.pos == y.pos
                          && (x.value == y.value || (y.pos == c && y.value == total))
  {
    if s != [] {
      var r := KeepFirst(s, c, total);
      assert s[0] in s;
      if s[0].pos == c {
        forall y | y in r
          ensures exists x :: x in s && x.id == y.id && x.pos == y.pos
                              && (x.value == y.value || (y.pos == c && y.value == total))
        {
          if y != r[0] {
            assert y in r[1..];
            assert y in s[1..];
          }
        }
      } else {
        KeepFirstOrigins(s[1..], c, total);
        forall y | y in r
          ensures exists x :: x in s && x.id == y.id && x.pos == y.pos
                              && (x.value == y.value || (y.pos == c && y.value == total))
        {
          if y != r[0] {
            assert y in r[1..];
            var x :| x in s[1..] && x.id == y.id && x.pos == y.pos
                     && (x.value == y.value || (y.pos == c && y.value == total));
            assert x in s;
          }
        }
      }
    }
  }

  /** Neither per-tick mark is set on any item. */
  predicate Unmarked(s: seq<Item>) { forall x :: x in s ==> !x.processed && !x.merged }

  /** The items a merge keeps carry the marks they had, so a merge sets no mark. */
  lemma {:induction false} KeepFirstUnmarked(s: seq<Item>, c: Cell, total: int)
    requires Unmarked(s)
    ensures Unmarked(KeepFirst(s, c, total))
  {
    if s != [] && s[0].pos != c {
      assert forall x :: x in s[1..] ==> x in s;
      KeepFirstUnmarked(s[1..], c, total);
    }
  }

  lemma MergeAtUnmarked(s: seq<Item>, c: Cell)
    requires Unmarked(s)
    ensures Unmarked(MergeAt(s, c))
  {
    if |OnCell(s, c)| > 1 {
      KeepFirstUnmarked(s, c, Total(OnCell(s, c)));
    }
  }

  /** Merging keeps ids unique and values positive and creates no id. */
  lemma MergeAtKeeps(s: seq<Item>, c: Cell)
    ensures Ids(MergeAt(s, c)) <= Ids(s)
    ensures UniqueIds(s) ==> UniqueIds(MergeAt(s, c))
    ensures AllPositive(s) ==> AllPositive(MergeAt(s, c))
  {
    var here := OnCell(s, c);
    if |here| > 1 {
      KeepFirstIds(s, c, Total(here));
      KeepFirstOrigins(s, c, Total(here));
      if AllPositive(s) {
        assert AllPositive(here);
        TotalOfPositive(here);
      }
    }
  }

  /** No item changes cell in a merge. */
  lemma MergeAtOrigins(s: seq<Item>, c: Cell)
    ensures forall y :: y in MergeAt(s, c) ==> exists x :: x in s && x.id == y.id && x.pos == y.pos
  {
    var here := OnCell(s, c);
    if |here| > 1 {
      KeepFirstOrigins(s, c, Total(here));
    }
  }

  /** Two items of values 3 and 4 on one cell become one item of value 7. */
  lemma MergeExample(a: nat, b: nat, c: Cell)
    requires a != b
    ensures MergeAt([Item(a, c, 3, false, false), Item(b, c, 4, false, false)], c)
         == [Item(a, c, 7, false, false)]
  {
    var s := [Item(a, c, 3, false, false), Item(b, c, 4, false, false)];
    assert s[1..][1..] == [];
    assert OnCell(s[1..], c) == [s[1]] + OnCell(s[1..][1..], c);
    assert OnCell(s, c) == s;
    assert OffCell(s[1..], c) == OffCell(s[1..][1..], c) == [];
    assert Total(s) == 3 + Total(s[1..]) == 3 + 4 + Total(s[1..][1..]);
  }
}
