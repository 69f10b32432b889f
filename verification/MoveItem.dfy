// Moving an item between two cylinders: the exchange with an item in the way,
// the split of a stack and the merge into another (src/game/game.cpp:1693-1915).
module MoveItem {
  import opened Arithmetic
  import opened Stacks

  /** The return values that matter here: no error, a swap is needed, and all others. */
  datatype Ret = NoError | NeedExchange | Refused(code: nat)

  const NOT_POSSIBLE := Refused(1)
  const NOT_ENOUGH_ROOM := Refused(2)

  type uint8 = n: nat | n < 0x100

  /** An item type. */
  datatype Kind = Kind(id: nat, stackable: bool, stackSize: uint8)

  class Item {
    const kind: Kind
    var count: uint8

    constructor (kind: Kind, count: uint8)
      ensures this.kind == kind && this.count == count
    {
      this.kind, this.count := kind, count;
    }

    /** clone, with the count set afterwards. */
    method Clone(count: uint8) returns (copy: Item)
      ensures fresh(copy) && copy.kind == kind && copy.count == count
    {
      copy := new Item(kind, count);
    }
  }

  /** How many pieces of a kind are among the items. */
  ghost function Held(items: seq<Item>, kind: Kind): nat
    reads items
  {
    if items == [] then 0 else (if items[0].kind == kind then items[0].count else 0) + Held(items[1..], kind)
  }

  lemma {:induction false} HeldConcat(a: seq<Item>, b: seq<Item>, kind: Kind)
    ensures Held(a + b, kind) == Held(a, kind) + Held(b, kind)
  {
    if a == [] {
      assert a + b == b;
    } else {
      HeldConcat(a[1..], b, kind);
      assert (a + b)[1..] == a[1..] + b;
    }
  }

  lemma HeldSplit(items: seq<Item>, i: nat, kind: Kind)
    requires i < |items|
    ensures Held(items, kind) ==
      Held(items[..i] + items[i + 1..], kind) + if items[i].kind == kind then items[i].count else 0
  {
    HeldConcat(items[..i], items[i..], kind);
    HeldConcat(items[..i], items[i + 1..], kind);
    assert items == items[..i] + items[i..] && items[i..][1..] == items[i + 1..];
  }

  ghost predicate Distinct(items: seq<Item>) {
    forall i, j :: 0 <= i < j < |items| ==> items[i] != items[j]
  }

  /** No stack is larger than its stack size. */
  ghost predicate StacksFit(items: seq<Item>)
    reads items
  {
    forall x <- items :: x.kind.stackable ==> x.count <= x.kind.stackSize
  }

  class Cylinder {
    var items: seq<Item>

    constructor ()
      ensures items == []
    {
      items := [];
    }

    method Find(item: Item) returns (i: nat)
      requires item in items
      ensures i < |items| && items[i] == item
    {
      i := 0;
      while items[i] != item
        invariant i < |items| && item !in items[..i]
        decreases |items| - i
      {
        assert items[..i + 1] == items[..i] + [items[i]];
        i := i + 1;
      }
    }

    /** queryRemove: the cylinder holds that many of the item, and nothing else forbids it. */
    function QueryRemove(item: Item, n: nat, veto: Ret): Ret
      reads this, item
    {
      if item !in items || n == 0 || (item.kind.stackable && n > item.count) then NOT_POSSIBLE else veto
    }

    /** removeThing: part of a stack, or the item. */
    method RemoveThing(item: Item, n: nat, ghost kind: Kind)
      requires Distinct(items) && QueryRemove(item, n, NoError) == NoError
      modifies this, item
      ensures Distinct(items)
      ensures forall x :: x in items <==> x in old(items) && (x == item ==> Partly(item, n, old(item.count)))
      ensures item.count == if Partly(item, n, old(item.count)) then old(item.count) - n else old(item.count)
      ensures Held(items, kind) + (if item.kind == kind then Pieces(item, n, old(item.count)) else 0) ==
              old(Held(items, kind))
    {
      var i := Find(item);
      HeldSplit(items, i, kind);
      ghost var others := items[..i] + items[i + 1..];
      if item.kind.stackable && n != item.count {
        item.count := item.count - n;
        HeldSplit(items, i, kind);
      } else {
        items := items[..i] + items[i + 1..];
      }
    }

    method AddThing(item: Item, ghost kind: Kind)
      requires Distinct(items) && item !in items
      modifies this
      ensures Distinct(items) && items == [item] + old(items)
      ensures Held(items, kind) == old(Held(items, kind)) + if item.kind == kind then item.count else 0
    {
      items := [item] + items;
      assert items[1..] == old(items);
    }

    /** updateThing with a new count. */
    method UpdateThing(item: Item, count: uint8, ghost kind: Kind)
      requires Distinct(items) && item in items && count >= item.count
      modifies item
      ensures item.count == count
      ensures Held(items, kind) == old(Held(items, kind)) + if item.kind == kind then count - old(item.count) else 0
    {
      ghost var i :| 0 <= i < |items| && items[i] == item;
      HeldSplit(items, i, kind);
      item.count := count;
      HeldSplit(items, i, kind);
    }
  }

  /** Removing n of the item leaves some of it. */
  predicate Partly(item: Item, n: nat, count: nat) {
    item.kind.stackable && n != count
  }

  /** The pieces that go when n are asked for: an item that does not stack goes whole. */
  function Pieces(item: Item, n: nat, count: nat): nat {
    if item.kind.stackable then n else count
  }

  // --------------------------------------------------------------------
  // Both cylinders, which may be one and the same
  // --------------------------------------------------------------------

  ghost function Both(a: Cylinder, b: Cylinder, kind: Kind): nat
    reads a, b, a.items, b.items
  {
    Held(a.items, kind) + if a == b then 0 else Held(b.items, kind)
  }

  /** Every item lies in one place. */
  ghost predicate Apart(a: Cylinder, b: Cylinder)
    reads a, b
  {
    Distinct(a.items) && Distinct(b.items) && (a != b ==> forall x <- a.items :: x !in b.items)
  }

  ghost predicate Valid(a: Cylinder, b: Cylinder)
    reads a, b, a.items, b.items
  {
    Apart(a, b) && StacksFit(a.items) && StacksFit(b.items)
  }

  /** Two cylinders hold what the one and the other hold; one cylinder given twice counts once. */
  lemma BothCounts(a: Cylinder, b: Cylinder, kind: Kind)
    ensures a != b ==> Both(a, b, kind) == Held(a.items, kind) + Held(b.items, kind)
    ensures a == b ==> Both(a, b, kind) == Held(a.items, kind)
  {
  }

  /** Nothing is wrong with empty cylinders, nor with a stack that is not too large in one of them. */
  lemma SoundCylinders(a: Cylinder, b: Cylinder, x: Item)
    requires a != b && (a.items == [] || a.items == [x]) && b.items == [] && x.count <= x.kind.stackSize
    ensures Valid(a, b) && Valid(b, a)
  {
  }

  method Take(a: Cylinder, b: Cylinder, item: Item, n: nat, ghost kind: Kind)
    requires Valid(a, b) && a.QueryRemove(item, n, NoError) == NoError
    modifies a, item
    ensures Valid(a, b)
    ensures forall x :: x in a.items <==> x in old(a.items) && (x == item ==> Partly(item, n, old(item.count)))
    ensures item.count == if Partly(item, n, old(item.count)) then old(item.count) - n else old(item.count)
    ensures Held(a.items, kind) + (if item.kind == kind then Pieces(item, n, old(item.count)) else 0) ==
      old(Held(a.items, kind))
    ensures a != b ==> Held(b.items, kind) == old(Held(b.items, kind))
  {
    a.RemoveThing(item, n, kind);
  }

  method Put(a: Cylinder, b: Cylinder, item: Item, ghost kind: Kind)
    requires Valid(a, b) && item !in a.items && item !in b.items
    requires item.kind.stackable ==> item.count <= item.kind.stackSize
    modifies b
    ensures Valid(a, b) && b.items == [item] + old(b.items)
    ensures Held(b.items, kind) == old(Held(b.items, kind)) + if item.kind == kind then item.count else 0
    ensures a != b ==> Held(a.items, kind) == old(Held(a.items, kind))
  {
    b.AddThing(item, kind);
  }

  method Grow(a: Cylinder, b: Cylinder, item: Item, count: uint8, ghost kind: Kind)
    requires Valid(a, b) && item in b.items && item.count <= count
    requires item.kind.stackable ==> count <= item.kind.stackSize
    modifies item
    ensures Valid(a, b) && item.count == count
    ensures Held(b.items, kind) == old(Held(b.items, kind)) + if item.kind == kind then count - old(item.count) else 0
    ensures a != b ==> Held(a.items, kind) == old(Held(a.items, kind))
  {
    b.UpdateThing(item, count, kind);
  }

  /** What the queries and callbacks of one move answer. */
  datatype Answers = Answers(
    movesUp: bool,             // the destination holds the source
    remove: Ret, add: Ret,
    exchangeAdd: Ret, exchangeMax: Ret, exchangeMaxCount: nat, exchangeRemove: Ret, addAgain: Ret,
    max: Ret, maxCount: nat, removeMany: Ret,
    tradeItem: bool,           // the destination is, or lies in, the item on offer
    alike: bool                // items of one kind also agree in their attributes
  )

  /** The item in the way goes to the source. */
  method Exchange(from: Cylinder, to: Cylinder, inTheWay: Item, ghost kind: Kind)
    requires Valid(from, to) && inTheWay in to.items && inTheWay.count > 0
    modifies from, to, inTheWay
    ensures Valid(from, to) && Both(from, to, kind) == old(Both(from, to, kind))
    ensures inTheWay.count == old(inTheWay.count)
    ensures inTheWay in from.items && (from != to ==> inTheWay !in to.items)
    ensures forall x :: x in from.items <==> x in old(from.items) || x == inTheWay
    ensures from != to ==> forall x :: x in to.items <==> x in old(to.items) && x != inTheWay
    ensures from != to && inTheWay.kind == kind ==> Held(to.items, kind) + inTheWay.count == old(Held(to.items, kind))
    ensures from != to && inTheWay.kind != kind ==> Held(to.items, kind) == old(Held(to.items, kind))
  {
    Take(to, from, inTheWay, inTheWay.count, kind);
    Put(to, from, inTheWay, kind);
  }

  /** How many of m pieces join the item that is there: as many as fit, if it is a stack of the same kind. */
  function Joining(kind: Kind, there: Item?, m: nat, alike: bool): nat
    reads if there == null then {} else {there}
  {
    if there != null && there.kind == kind && alike && there.count <= kind.stackSize
    then Min(m, kind.stackSize - there.count) else 0
  }

  /** The removal, the merge into a stack that is there, and the rest as an item of its own. */
  method Transfer(from: Cylinder, to: Cylinder, item: Item, toItem: Item?, m: nat, alike: bool, ghost kind: Kind)
      returns (movedItem: Item, ghost n: nat)
    requires Valid(from, to) && from.QueryRemove(item, m, NoError) == NoError && item != toItem
    requires toItem != null ==> toItem in to.items
    modifies from, to, item
    modifies if toItem == null then {} else {toItem}
    ensures Valid(from, to) && Both(from, to, kind) == old(Both(from, to, kind))
    ensures from != to ==>
      Held(to.items, kind) ==
        old(Held(to.items, kind)) + if item.kind == kind then Pieces(item, m, old(item.count)) else 0
    ensures from != to ==>
      forall x :: x in from.items <==> x in old(from.items) && (x == item ==> Partly(item, m, old(item.count)))
    ensures forall x :: x in to.items ==> x in old(to.items) || x == movedItem
    ensures forall x :: x in old(to.items) && x != item ==> x in to.items
    ensures movedItem == item || fresh(movedItem)
    ensures n == if item.kind.stackable then old(Joining(item.kind, toItem, m, alike)) else 0
    ensures if item.kind.stackable then movedItem.count == Handed(old(item.count), m, n) else movedItem == item
  {
    hide Held, Joining;
    Take(from, to, item, m, kind);
    movedItem, n := item, 0;
    if !item.kind.stackable {
      Put(from, to, item, kind);
      return;
    }
    var joined := Merge(from, to, item.kind, toItem, m, alike, kind);
    n := joined;
    movedItem := PutRest(from, to, item, m - joined, kind);
  }

  /** The pieces that joined no stack arrive as an item of their own. */
  method PutRest(from: Cylinder, to: Cylinder, item: Item, newCount: uint8, ghost kind: Kind) returns (movedItem: Item)
    requires Valid(from, to) && item.kind.stackable && newCount <= item.kind.stackSize
    modifies to
    ensures Valid(from, to)
    ensures newCount == 0 ==> movedItem == item && to.items == old(to.items)
    ensures newCount > 0 ==> fresh(movedItem) && movedItem.kind == item.kind && movedItem.count == newCount &&
                             to.items == [movedItem] + old(to.items)
    ensures Held(to.items, kind) == old(Held(to.items, kind)) + if item.kind == kind then newCount else 0
    ensures from != to ==> Held(from.items, kind) == old(Held(from.items, kind))
  {
    movedItem := item;
    if newCount > 0 {
      movedItem := item.Clone(newCount);
      Put(from, to, movedItem, kind);
    }
  }

  /** As much as fits of m pieces joins a stack of the same kind. */
  method Merge(from: Cylinder, to: Cylinder, moving: Kind, toItem: Item?, m: uint8, alike: bool, ghost kind: Kind)
      returns (n: nat)
    requires Valid(from, to) && moving.stackable && (toItem != null ==> toItem in to.items)
    modifies if toItem == null then {} else {toItem}
    ensures Valid(from, to) && n <= m
    ensures n == old(Joining(moving, toItem, m, alike))
    ensures n == if toItem != null && toItem.kind == moving && alike then Min(m, moving.stackSize - old(toItem.count))
                 else 0
    ensures toItem != null ==> toItem.count == old(toItem.count) + n
    ensures Held(to.items, kind) == old(Held(to.items, kind)) + if moving == kind then n else 0
    ensures from != to ==> Held(from.items, kind) == old(Held(from.items, kind))
  {
    n := 0;
    if toItem != null && moving == toItem.kind && alike {
      var free := toItem.kind.stackSize - toItem.count;
      n := Min(m, free);
      Grow(from, to, toItem, toItem.count + n, kind);
    }
  }

  /** How much of the item the player asks for. */
  function Wanted(kind: Kind, have: nat, count: nat, a: Answers): nat {
    if kind.stackable && count == 255 && a.movesUp then have else count
  }

  /** How much of that the destination takes; an item that does not stack goes by that alone. */
  function Amount(kind: Kind, have: nat, count: nat, a: Answers): nat {
    if kind.stackable then Min(Wanted(kind, have, count, a), a.maxCount) else a.maxCount
  }

  /** internalMoveItem, once the destination and the item there are known. `kind` stands for any kind of item;
      `moved` is how much of the item went over, `merged` how much of that joined a stack, `swapped` whether the
      item in the way came back. */
  method InternalMoveItem(from: Cylinder, to: Cylinder, item: Item, toItem: Item?, count: nat, a: Answers,
                          ghost kind: Kind)
      returns (ret: Ret, movedItem: Item?, ghost moved: nat, ghost merged: nat, ghost swapped: bool)
    requires Valid(from, to)
    requires toItem != null ==> toItem in to.items && toItem.count > 0
    requires a.add == NeedExchange ==> toItem != null
    modifies from, to, item
    modifies if toItem == null then {} else {toItem}
    ensures Valid(from, to)
    ensures Both(from, to, kind) == old(Both(from, to, kind))
    ensures swapped ==> toItem != null && a.add == NeedExchange
    ensures from != to ==>
      Held(to.items, kind) + (if swapped && toItem.kind == kind then old(toItem.count) else 0) ==
        old(Held(to.items, kind)) + if item.kind == kind then moved else 0
    ensures movedItem != null && from != to ==> forall x :: x in from.items <==>
      (x in old(from.items) || (swapped && x == toItem)) && (x == item ==> Partly(item, moved, old(item.count)))
    ensures movedItem != null ==> forall x :: x in to.items ==> x in old(to.items) || x == movedItem
    ensures from != to ==> forall x :: x in old(to.items) && x != item && !(swapped && x == toItem) ==> x in to.items
    ensures movedItem == null ==> moved == 0 && (!swapped ==> unchanged(from) && unchanged(to) && unchanged(item))
    ensures movedItem != null && item.kind.stackable ==>
      moved == Min(if count == 255 && a.movesUp then old(item.count) else count, a.maxCount)
    ensures movedItem != null && item.kind.stackable ==>
      merged == (if swapped || toItem == null || toItem.kind != item.kind || !a.alike then 0
                 else Min(moved, item.kind.stackSize - old(toItem.count))) &&
      movedItem.count == Handed(old(item.count), moved, merged)
    ensures movedItem != null && !item.kind.stackable ==> moved == old(item.count) && movedItem == item
    ensures swapped <==>
      item != toItem && old(item in from.items && (item.kind.stackable ==> item.count > 0)) && a.remove == NoError &&
      a.add == NeedExchange && a.exchangeAdd == NoError && (a.exchangeMax == NoError || a.exchangeMaxCount > 0) &&
      a.exchangeRemove == NoError
    ensures var wanted := if item.kind.stackable && count == 255 && a.movesUp then old(item.count) else count;
      var m := if item.kind.stackable && wanted < a.maxCount then wanted else a.maxCount;
      (movedItem != null <==>
        item != toItem && old(item in from.items && (item.kind.stackable ==> item.count > 0)) && a.remove == NoError &&
        (a.add == NoError || (swapped && a.addAgain == NoError) ||
         (a.add == NeedExchange && a.exchangeAdd == NoError && (a.exchangeMax == NoError || a.exchangeMaxCount > 0) &&
          a.exchangeRemove != NoError)) &&
        (a.max == NoError || a.maxCount > 0) && m > 0 && (item.kind.stackable ==> m <= old(item.count)) &&
        a.removeMany == NoError && !a.tradeItem) &&
      (ret == NoError <==>
        item == toItem ||
        (movedItem != null && (item.kind.stackable && a.maxCount < wanted ==> a.max == NoError)))
  {
    hide Held, Handed;
    movedItem, moved, merged, swapped := null, 0, 0, false;
    if item == toItem {
      return NoError, null, 0, 0, false;
    }
    var wanted := Wanted(item.kind, item.count, count, a);
    var target, m;
    ret, target, swapped, m := Prepare(from, to, item, toItem, count, a, kind);
    if ret != NoError {
      return;
    }
    moved := Pieces(item, m, item.count);
    movedItem, merged := Transfer(from, to, item, target, m, a.alike, kind);
    if item.kind.stackable && a.maxCount < wanted {
      ret := a.max;
    }
  }

  /** All that is asked before the item is removed: how many pieces go, and whether they may. */
  method Prepare(from: Cylinder, to: Cylinder, item: Item, toItem: Item?, count: nat, a: Answers, ghost kind: Kind)
      returns (ret: Ret, target: Item?, swapped: bool, m: nat)
    requires Valid(from, to) && item != toItem
    requires toItem != null ==> toItem in to.items && toItem.count > 0
    requires a.add == NeedExchange ==> toItem != null
    modifies from, to
    modifies if toItem == null then {} else {toItem}
    ensures Valid(from, to)
    ensures Both(from, to, kind) == old(Both(from, to, kind))
    ensures swapped ==> forall x :: x in from.items <==> x in old(from.items) || x == toItem
    ensures swapped && from != to ==> forall x :: x in to.items <==> x in old(to.items) && x != toItem
    ensures toItem != null ==> toItem.count == old(toItem.count)
    ensures swapped ==> toItem != null && target == null
    ensures !swapped ==> target == toItem && unchanged(from) && unchanged(to)
    ensures from != to ==>
      Held(to.items, kind) + (if swapped && toItem.kind == kind then old(toItem.count) else 0) ==
        old(Held(to.items, kind))
    ensures swapped <==>
      old(item in from.items && (item.kind.stackable ==> item.count > 0)) && a.remove == NoError &&
      a.add == NeedExchange && a.exchangeAdd == NoError && (a.exchangeMax == NoError || a.exchangeMaxCount > 0) &&
      a.exchangeRemove == NoError
    ensures m == Amount(item.kind, item.count, count, a)
    ensures ret == NoError <==>
      old(item in from.items && (item.kind.stackable ==> item.count > 0)) && a.remove == NoError &&
      (a.add == NoError || (swapped && a.addAgain == NoError) ||
       (a.add == NeedExchange && a.exchangeAdd == NoError && (a.exchangeMax == NoError || a.exchangeMaxCount > 0) &&
        a.exchangeRemove != NoError)) &&
      (a.max == NoError || a.maxCount > 0) && m > 0 && (item.kind.stackable ==> m <= item.count) &&
      a.removeMany == NoError && !a.tradeItem
    ensures ret == NoError ==> from.QueryRemove(item, m, NoError) == NoError
  {
    hide Held;
    m := Amount(item.kind, item.count, count, a);
    target, swapped := toItem, false;
    ret := from.QueryRemove(item, 1, a.remove);
    if ret != NoError {
      return;
    }
    ret, target, swapped := MakeRoom(from, to, toItem, a, kind);
    if ret != NoError {
      return;
    }
    if a.max != NoError && a.maxCount == 0 {
      ret := a.max;
      return;
    }
    ret := from.QueryRemove(item, m, a.removeMany);
    if ret == NoError && a.tradeItem {
      ret := NOT_ENOUGH_ROOM;
    }
  }

  /** The answer of the destination, after the swap that it may ask for. */
  method MakeRoom(from: Cylinder, to: Cylinder, toItem: Item?, a: Answers, ghost kind: Kind)
      returns (ret: Ret, target: Item?, swapped: bool)
    requires Valid(from, to)
    requires toItem != null ==> toItem in to.items && toItem.count > 0
    requires a.add == NeedExchange ==> toItem != null
    modifies from, to
    modifies if toItem == null then {} else {toItem}
    ensures Valid(from, to)
    ensures Both(from, to, kind) == old(Both(from, to, kind))
    ensures swapped ==> forall x :: x in from.items <==> x in old(from.items) || x == toItem
    ensures swapped && from != to ==> forall x :: x in to.items <==> x in old(to.items) && x != toItem
    ensures toItem != null ==> toItem.count == old(toItem.count)
    ensures swapped ==> toItem != null && a.add == NeedExchange && target == null
    ensures !swapped ==> target == toItem && unchanged(from) && unchanged(to)
    ensures swapped <==>
      a.add == NeedExchange && a.exchangeAdd == NoError && (a.exchangeMax == NoError || a.exchangeMaxCount > 0) &&
      a.exchangeRemove == NoError
    ensures ret ==
      if a.add != NeedExchange then a.add
      else if a.exchangeAdd != NoError then a.exchangeAdd
      else if a.exchangeMax != NoError && a.exchangeMaxCount == 0 then a.exchangeMax
      else if swapped then a.addAgain else NoError
    ensures from != to ==>
      Held(to.items, kind) + (if swapped && toItem.kind == kind then old(toItem.count) else 0) ==
        old(Held(to.items, kind))
  {
    ret, target, swapped := a.add, toItem, false;
    if ret != NeedExchange {
      return;
    }
    ret := a.exchangeAdd;
    if ret != NoError {
      return;
    }
    if a.exchangeMax != NoError && a.exchangeMaxCount == 0 {
      return a.exchangeMax, toItem, false;
    }
    if to.QueryRemove(toItem, toItem.count, a.exchangeRemove) == NoError {
      Exchange(from, to, toItem, kind);
      return a.addAgain, null, true;
    }
  }
}
